/** Admitting a run: what the checks establish, and what the new run keeps. */
module Admission {
  import opened Wrappers
  import opened Engine
  import opened Invariant
  import opened Frames
  import opened RunSteps
  import opened Authority
  import C = Cron
  import CL = CronLaws
  import H = History
  import HL = HistoryLaws

  // ---------------------------------------------------------------- what the checks establish

  lemma {:induction false} GrantsChecked(db: Db, env: Env, wid: Id, model: Id, refs: seq<GrantRef>)
    requires CheckGrants(db, env, wid, model, refs).Pass?
    ensures GrantsLive(db.grants, env.cfg, wid, model, refs)
  {
    if refs != [] {
      GrantsChecked(db, env, wid, model, refs[1..]);
      forall i | 0 <= i < |refs| ensures GrantLive(db.grants, env.cfg, wid, model, refs[i]) {
        if i > 0 { assert refs[i] == refs[1..][i - 1]; }
      }
    }
  }

  lemma {:induction false} InterfacesChecked(db: Db, iids: seq<Id>)
    requires CheckInterfaces(db, iids).Pass?
    ensures forall i | 0 <= i < |iids| :: InterfaceLive(db.interfaces, iids[i])
  {
    if iids != [] {
      InterfacesChecked(db, iids[1..]);
      forall i | 0 <= i < |iids| ensures InterfaceLive(db.interfaces, iids[i]) {
        if i > 0 { assert iids[i] == iids[1..][i - 1]; }
      }
    }
  }

  /** Everything the new run's row must meet. */
  ghost predicate Admittable(db: Db, cfg: Config, rid: Id, run: Run) {
    && rid !in db.runs && rid !in db.cancellations
    && run.state.Queued? && run.lastSeq == 1 && WithinBudget(run)
    && RunLive(db, cfg, run) && CapturedInv(db.workspaces, run)
    && |Active(db.runs)| < QUEUE_LIMIT
    && (forall r | r in Active(db.runs) :: Apart(db.runs[r], run))
    && (run.schedule.Some? ==> run.schedule.value.scheduleId in db.schedules)
  }

  lemma Placed(db: Db, env: Env, value: RunInput, run: Run)
    requires Placeable(db, env, value).Pass? && WorkspaceLive(db.workspaces, value.workspaceId)
    requires run.input == value && run.connections == ConnectionsOf(db, value.grantRefs)
    ensures RunLive(db, env.cfg, run) && |Active(db.runs)| < QUEUE_LIMIT
    ensures forall r | r in Active(db.runs) :: Apart(db.runs[r], run)
  {
    GrantsChecked(db, env, value.workspaceId, value.modelId, value.grantRefs);
    InterfacesChecked(db, value.interfaceIds);
    hide GrantsLive, InterfaceLive, CheckGrants, CheckInterfaces, ConnectionsOf;
    assert ActiveRuns(db) == Active(db.runs);
    assert forall r | r in ActiveRuns(db) ::
           !Clashes(db.runs[r], value.workspaceId, ConnectionsOf(db, value.grantRefs));
  }

  // ---------------------------------------------------------------- the new row

  lemma RowsGrow(rows: seq<Id>, keys: set<Id>, id: Id)
    requires RowsOf(rows, keys) && id !in keys
    ensures RowsOf(rows + [id], keys + {id})
  {}

  lemma AddedLogs(db: Db, rid: Id, run: Run)
    requires LogsInv(db.runs, db.events) && rid !in db.runs && run.state.Queued? && run.lastSeq == 1
             && WithinBudget(run)
    ensures LogsInv(db.runs[rid := run], db.events[rid := [Event(1, StateChanged(Queued, None))]])
  {
    var log := [Event(1, StateChanged(Queued, None))];
    assert LastState(log) == Some(Queued);
    assert LogInv(run, log);
    hide LogInv;
  }

  lemma AddedExclusive(runs: map<Id, Run>, rid: Id, run: Run)
    requires ExclusiveInv(runs) && rid !in runs && !Terminal(run.state)
    requires forall r | r in Active(runs) :: Apart(runs[r], run)
    ensures ExclusiveInv(runs[rid := run]) && Active(runs[rid := run]) == Active(runs) + {rid}
  {
    assert Active(runs[rid := run]) == Active(runs) + {rid};
    var more := runs[rid := run];
    forall r, q | r in more && q in more && r != q && !Terminal(more[r].state) && !Terminal(more[q].state)
      ensures Apart(more[r], more[q])
    {
      if r == rid {
        assert q in Active(runs);
      } else if q == rid {
        assert r in Active(runs);
      } else {
        assert Apart(runs[r], runs[q]);
      }
    }
  }

  lemma AddedLive(db: Db, b: Db, rid: Id, cfg: Config)
    requires LiveInv(db, cfg) && rid in b.runs && RunLive(db, cfg, b.runs[rid])
    requires b == db.(runs := db.runs[rid := b.runs[rid]], runRows := b.runRows, events := b.events)
    ensures LiveInv(b, cfg)
  {
    forall r | r in b.runs && Live(b.runs[r].state) ensures RunLive(b, cfg, b.runs[r]) {
      if r != rid { assert RunLive(db, cfg, db.runs[r]); }
    }
    forall s | s in b.schedules && b.schedules[s].state.Enabled? ensures ScheduleLive(b, cfg, b.schedules[s]) {
      assert ScheduleLive(db, cfg, db.schedules[s]);
    }
  }

  lemma AddedFollowers(db: Db, rid: Id, run: Run, cfg: Config)
    requires rid !in db.runs && CapturedInv(db.workspaces, run)
    requires HistoryInv(cfg, db.workspaces, db.runs) && RequestsInv(db.tools, db.runs)
    requires ProposalsInv(db.proposals, db.runs, db.schedules)
    ensures HistoryInv(cfg, db.workspaces, db.runs[rid := run]) && RequestsInv(db.tools, db.runs[rid := run])
    ensures ProposalsInv(db.proposals, db.runs[rid := run], db.schedules)
  {
    forall p | p in db.proposals ensures ProposalInv(db.proposals[p], db.runs[rid := run], db.schedules) {
      assert ProposalInv(db.proposals[p], db.runs, db.schedules);
    }
    hide WorkspaceInv;
    var more := db.runs[rid := run];
    forall r | r in more ensures CapturedInv(db.workspaces, more[r]) {
      if r != rid { assert CapturedInv(db.workspaces, db.runs[r]); }
    }
  }

  lemma AddedRefreshes(db: Db, b: Db, rid: Id, run: Run)
    requires RefreshesInv(db) && rid !in db.runs && run.state.Queued? && db.events.Keys == db.runs.Keys
    requires run.schedule.Some? ==> run.schedule.value.scheduleId in db.schedules
    requires b == db.(runs := db.runs[rid := run], runRows := b.runRows,
                      events := db.events[rid := [Event(1, StateChanged(Queued, None))]])
    ensures RefreshesInv(b)
  {
    forall r | r in b.runs && r in b.events ensures RefreshInv(b.runs[r], b.events[r], b) {
      if r == rid {
        assert b.events[r][..0] == [];
        assert Updates(b.events[r]) == [];
      } else {
        assert RefreshInv(db.runs[r], db.events[r], db);
      }
    }
  }

  /** The joint invariant but for what an admission counts against its schedule. */
  ghost predicate InvButSchedules(db: Db, cfg: Config) {
    && RowsOf(db.runRows, db.runs.Keys) && RowsOf(db.scheduleRows, db.schedules.Keys)
    && LogsInv(db.runs, db.events)
    && ExclusiveInv(db.runs) && |Active(db.runs)| <= QUEUE_LIMIT && db.runs.Keys !! db.cancellations
    && LiveInv(db, cfg)
    && HistoryInv(cfg, db.workspaces, db.runs)
    && ChainInv(db.interfaces, db.revisions)
    && ProposalsInv(db.proposals, db.runs, db.schedules)
    && RequestsInv(db.tools, db.runs)
    && RefreshesInv(db)
    && UsageInv(db.usage, cfg.dailyLimit)
  }

  /** `b` is `db` with the new row. */
  ghost predicate Added(db: Db, b: Db, rid: Id, row: Run) {
    b == db.(runs := db.runs[rid := row], runRows := db.runRows + [rid],
             events := db.events[rid := [Event(1, StateChanged(Queued, None))]])
  }

  lemma AddedRowsKeep(db: Db, b: Db, rid: Id, row: Run, cfg: Config)
    requires InvButSchedules(db, cfg) && Admittable(db, cfg, rid, row) && Added(db, b, rid, row)
    ensures RowsOf(b.runRows, b.runs.Keys) && LogsInv(b.runs, b.events)
    ensures ExclusiveInv(b.runs) && |Active(b.runs)| <= QUEUE_LIMIT && b.runs.Keys !! b.cancellations
    ensures HistoryInv(cfg, b.workspaces, b.runs) && RequestsInv(b.tools, b.runs)
            && ProposalsInv(b.proposals, b.runs, b.schedules)
  {
    hide RowsOf, LogsInv, ExclusiveInv, LiveInv, HistoryInv, ChainInv, ProposalsInv, RequestsInv, RefreshesInv;
    hide RunLive, CapturedInv, Apart, Active;
    RowsGrow(db.runRows, db.runs.Keys, rid);
    AddedLogs(db, rid, row);
    AddedExclusive(db.runs, rid, row);
    AddedFollowers(db, rid, row, cfg);
    assert b.runs.Keys == db.runs.Keys + {rid};
  }

  lemma AddedReferencesKeep(db: Db, b: Db, rid: Id, row: Run, cfg: Config)
    requires InvButSchedules(db, cfg) && Admittable(db, cfg, rid, row) && Added(db, b, rid, row)
    ensures LiveInv(b, cfg) && RefreshesInv(b)
  {
    hide RowsOf, LogsInv, ExclusiveInv, LiveInv, HistoryInv, ChainInv, ProposalsInv, RequestsInv, RefreshesInv;
    hide RunLive, CapturedInv, Apart;
    LogKeys(db);
    AddedLive(db, b, rid, cfg);
    AddedRefreshes(db, b, rid, row);
  }

  lemma AddRunKeeps(db: Db, rid: Id, run: Run, cfg: Config)
    requires InvButSchedules(db, cfg) && Admittable(db, cfg, rid, run)
    ensures InvButSchedules(AddRun(db, rid, run), cfg)
  {
    hide RowsOf, LogsInv, ExclusiveInv, LiveInv, HistoryInv, ChainInv, ProposalsInv, RequestsInv, RefreshesInv;
    hide RunLive, CapturedInv, Apart, Active;
    var row := run.(reason := None);
    SameRow(db, run, row, cfg);
    var b := AddRun(db, rid, run);
    assert Added(db, b, rid, row);
    AddedRowsKeep(db, b, rid, row, cfg);
    AddedReferencesKeep(db, b, rid, row, cfg);
  }

  lemma SameRow(db: Db, run: Run, row: Run, cfg: Config)
    requires row == run.(reason := None) && RunLive(db, cfg, run) && CapturedInv(db.workspaces, run)
    requires forall r | r in Active(db.runs) :: Apart(db.runs[r], run)
    ensures RunLive(db, cfg, row) && CapturedInv(db.workspaces, row)
    ensures forall r | r in Active(db.runs) :: Apart(db.runs[r], row)
  {}

  lemma AddRunAdvances(db: Db, rid: Id, run: Run, clock: int)
    requires rid !in db.runs && db.events.Keys == db.runs.Keys
    ensures Advances(db, AddRun(db, rid, run), clock)
  {}

  // ---------------------------------------------------------------- operator runs

  /** A run of no schedule leaves the count of every schedule as it was. */
  lemma UnscheduledCounts(a: Db, b: Db, rid: Id, cfg: Config, clock: int)
    requires SchedulesInv(a, cfg, clock) && rid !in a.runs && rid in b.runs && b.runs[rid].schedule.None?
    requires b == a.(runs := a.runs[rid := b.runs[rid]], runRows := b.runRows, events := b.events)
    ensures forall s | s in b.schedules :: ScheduleInv(cfg, b.schedules[s], s, b, clock)
  {
    hide C.Matches, DueInv, SlotsInv, CL.FromText;
    forall s | s in b.schedules ensures ScheduleInv(cfg, b.schedules[s], s, b, clock) {
      assert ScheduleInv(cfg, a.schedules[s], s, a, clock);
      assert ScheduledRuns(b.runs, s) == ScheduledRuns(a.runs, s);
    }
  }

  lemma UnscheduledSlots(a: Db, b: Db, rid: Id, cfg: Config, clock: int)
    requires SlotsInv(a, cfg, clock) && rid !in a.runs && rid in b.runs
    requires b == a.(runs := a.runs[rid := b.runs[rid]], runRows := b.runRows, events := b.events)
    ensures SlotsInv(b, cfg, clock)
  {
    hide C.Matches;
    forall k | k in b.occurrences ensures SlotInv(cfg, b.schedules[k.0], k.0, k.1, b.occurrences[k], b.runs) {
      assert SlotInv(cfg, a.schedules[k.0], k.0, k.1, a.occurrences[k], a.runs);
    }
  }

  lemma UnscheduledRun(db: Db, rid: Id, run: Run, cfg: Config, clock: int)
    requires SchedulesInv(db, cfg, clock) && rid !in db.runs && run.schedule.None?
    ensures SchedulesInv(AddRun(db, rid, run), cfg, clock)
  {
    hide AddRun, ScheduleInv, SlotsInv;
    AddRunElsewhere(db, rid, run);
    UnscheduledCounts(db, AddRun(db, rid, run), rid, cfg, clock);
    UnscheduledSlots(db, AddRun(db, rid, run), rid, cfg, clock);
  }

  lemma OperatorRunKeepsInv(db: Db, rid: Id, run: Run, cfg: Config, clock: int)
    requires Inv(db, cfg, clock) && Admittable(db, cfg, rid, run) && run.schedule.None?
    ensures Sound(db, AddRun(db, rid, run), cfg, clock)
  {
    hide RowsOf, LogsInv, ExclusiveInv, LiveInv, HistoryInv, ChainInv, ProposalsInv, RequestsInv, RefreshesInv,
        SchedulesInv;
    hide RunLive, CapturedInv, Apart, AddRun, Advances;
    assert db.events.Keys == db.runs.Keys by { LogKeys(db); }
    AddRunKeeps(db, rid, run, cfg);
    UnscheduledRun(db, rid, run, cfg, clock);
    AddRunAdvances(db, rid, run, clock);
    assert AddRun(db, rid, run).scheduleRows == db.scheduleRows by { AddRunElsewhere(db, rid, run); }
  }

  lemma AddRunElsewhere(db: Db, rid: Id, run: Run)
    ensures var b := AddRun(db, rid, run);
            && b == db.(runs := b.runs, runRows := db.runRows + [rid], events := b.events)
            && b.runs == db.runs[rid := run.(state := Queued, reason := None, lastSeq := 1)]
            && b.events == db.events[rid := [Event(1, StateChanged(Queued, None))]]
  {}

  /** An operator's run captures exactly what its workspace has committed. */
  lemma CapturesCommitted(db: Db, wid: Id, cfg: Config, clock: int)
    requires Inv(db, cfg, clock) && wid in db.workspaces
    ensures H.RuntimeHistory(cfg.codec, db.workspaces[wid].history) == Some(db.workspaces[wid].history)
  {
    hide RowsOf, LogsInv, ExclusiveInv, LiveInv, ChainInv, ProposalsInv, RequestsInv, RefreshesInv, SchedulesInv;
    assert WorkspaceInv(cfg, db.workspaces[wid]);
  }

  lemma CreateOperatorRunKeepsInv(db: Db, env: Env, value: RunInput, rid: Id)
    requires Inv(db, env.cfg, env.now) && CreateRun(db, env, value, rid, None).1.Pass?
    ensures Sound(db, CreateRun(db, env, value, rid, None).0, env.cfg, env.now)
  {
    hide Inv, Advances, TouchWorkspace, AddRun, H.RuntimeHistory, H.ValidImport, Placeable, RunLive;
    TouchKeepsInv(db, value.workspaceId, value.importHistory, true, env.cfg, env.now);
    var placed := TouchWorkspace(db, value.workspaceId, value.importHistory, true).value;
    CapturesCommitted(placed, value.workspaceId, env.cfg, env.now);
    var run := NewRun(placed, env, value, None, placed.workspaces[value.workspaceId].history).(lastSeq := 1);
    Placed(placed, env, value, run);
    OperatorRunKeepsInv(placed, rid, run, env.cfg, env.now);
    AddRunIgnores(placed, rid, run);
    Then(db, placed, AddRun(placed, rid, run), env.cfg, env.now);
  }

  lemma AddRunIgnores(db: Db, rid: Id, run: Run)
    ensures AddRun(db, rid, run.(lastSeq := 0)) == AddRun(db, rid, run)
  {}
}
