/** Workspaces, grants and interfaces come and go without leaving live work behind that relies on
    what is gone. */
module Authority {
  import opened Wrappers
  import opened Engine
  import opened Invariant
  import opened Frames
  import opened RunSteps
  import H = History
  import HL = HistoryLaws

  // ---------------------------------------------------------------- additions

  /** Whatever authority held before still holds. */
  ghost predicate MoreLive(a: Db, b: Db) {
    && (forall w | WorkspaceLive(a.workspaces, w) :: WorkspaceLive(b.workspaces, w))
    && (forall i | InterfaceLive(a.interfaces, i) :: InterfaceLive(b.interfaces, i))
    && (forall g | g in a.grants :: g in b.grants && b.grants[g] == a.grants[g])
  }

  lemma LiveGrows(a: Db, b: Db, cfg: Config)
    requires LiveInv(a, cfg) && b.runs == a.runs && b.schedules == a.schedules && MoreLive(a, b)
    ensures LiveInv(b, cfg)
  {
    hide WorkspaceLive, InterfaceLive;
    forall r | r in b.runs && Live(b.runs[r].state) ensures RunLive(b, cfg, b.runs[r]) {
      assert RunLive(a, cfg, a.runs[r]);
    }
    forall s | s in b.schedules && b.schedules[s].state.Enabled? ensures ScheduleLive(b, cfg, b.schedules[s]) {
      assert ScheduleLive(a, cfg, a.schedules[s]);
    }
  }

  lemma HistoryOf(db: Db, wid: Id, cfg: Config, clock: int)
    requires Inv(db, cfg, clock) && wid in db.workspaces
    ensures WorkspaceInv(cfg, db.workspaces[wid])
  {
    hide RowsOf, LogsInv, ExclusiveInv, LiveInv, ChainInv, ProposalsInv, RequestsInv, RefreshesInv, SchedulesInv;
  }

  /** Only the record of `wid` changes, and to something an admission may leave. */
  lemma RecordKeepsHistories(cfg: Config, a: map<Id, Workspace>, runs: map<Id, Run>, wid: Id, ws: Workspace)
    requires HistoryInv(cfg, a, runs) && WorkspaceInv(cfg, ws) && !ws.deleted
    requires wid in a ==> ws == a[wid] || !a[wid].admitted
    ensures HistoryInv(cfg, a[wid := ws], runs)
  {
    hide WorkspaceInv;
    forall r | r in runs ensures CapturedInv(a[wid := ws], runs[r]) {
      assert CapturedInv(a, runs[r]);
    }
  }

  lemma TouchKeepsInv(db: Db, wid: Id, imported: seq<H.Message>, admission: bool, cfg: Config, clock: int)
    requires Inv(db, cfg, clock) && H.ValidImport(imported) && TouchWorkspace(db, wid, imported, admission).Ok?
    ensures var b := TouchWorkspace(db, wid, imported, admission).value;
            && Sound(db, b, cfg, clock) && b == db.(workspaces := b.workspaces)
            && WorkspaceLive(b.workspaces, wid) && (admission ==> b.workspaces[wid].admitted)
  {
    hide RowsOf, LogsInv, ExclusiveInv, LiveInv, HistoryInv, ChainInv, ProposalsInv, RequestsInv, RefreshesInv,
        SchedulesInv;
    hide H.ValidImport;
    var b := TouchWorkspace(db, wid, imported, admission).value;
    var ws := b.workspaces[wid];
    assert WorkspaceInv(cfg, ws) by {
      assert H.ValidImport([]) by { Empty(); }
      HL.ImportIsStored(cfg.codec, []);
      HL.ImportIsStored(cfg.codec, imported);
      if wid in db.workspaces { HistoryOf(db, wid, cfg, clock); }
    }
    assert wid in db.workspaces ==> WorkspaceAdvances(db.workspaces[wid], ws) by {
      if wid in db.workspaces { HistoryOf(db, wid, cfg, clock); }
    }
    hide WorkspaceInv;
    RecordKeepsHistories(cfg, db.workspaces, db.runs, wid, ws);
    LiveGrows(db, b, cfg);
    WorkspacesKeepInv(db, b, cfg, clock);
  }

  lemma Empty()
    ensures H.ValidImport([])
  {}

  lemma NewGrantKeepsInv(db: Db, gid: Id, grant: Grant, cfg: Config, clock: int)
    requires Inv(db, cfg, clock) && gid !in db.grants
    ensures Sound(db, db.(grants := db.grants[gid := grant]), cfg, clock)
  {
    hide RowsOf, LogsInv, ExclusiveInv, LiveInv, HistoryInv, ChainInv, ProposalsInv, RequestsInv, RefreshesInv,
        SchedulesInv;
    var b := db.(grants := db.grants[gid := grant]);
    LiveGrows(db, b, cfg);
    GrantsKeepInv(db, b, cfg, clock);
  }

  lemma CreateGrantKeepsInv(db: Db, env: Env, v: GrantInput, gid: Id)
    requires Inv(db, env.cfg, env.now) && Unused(db, gid) && CreateGrant(db, env, v, gid).Ok?
    ensures Sound(db, CreateGrant(db, env, v, gid).value, env.cfg, env.now)
  {
    hide Inv, Advances, H.ValidImport, TouchWorkspace;
    Empty();
    TouchKeepsInv(db, v.workspaceId, [], false, env.cfg, env.now);
    var touched := TouchWorkspace(db, v.workspaceId, [], false).value;
    var b := CreateGrant(db, env, v, gid).value;
    NewGrantKeepsInv(touched, gid, b.grants[gid], env.cfg, env.now);
    Then(db, touched, b, env.cfg, env.now);
  }

  // ---------------------------------------------------------------- stopped work stays stopped

  lemma StoppedRun(db: Db, victims: set<Id>, reason: Reason, r: Id)
    requires r in db.runs && r in victims
    ensures var b := SweepRuns(db, victims, Stop, reason); r in b.runs && !Live(b.runs[r].state)
  {}

  lemma PausedSchedulesOnly(db: Db, sids: set<Id>, reason: Reason)
    ensures var b := PauseSchedules(db, sids, reason);
            && b.schedules.Keys == db.schedules.Keys
               && b == db.(runs := b.runs, events := b.events, proposals := b.proposals, schedules := b.schedules)
            && forall s | s in b.schedules ::
                 if s in sids then b.schedules[s].state.Paused? else b.schedules[s] == db.schedules[s]
  {
    SweepFrame(PausedOnly(db, sids, reason), RunsOf(db, sids), Stop, reason);
    hide SweepRuns;
  }

  /** What both bulk stops leave: none of the runs and none of the schedules they were aimed at is
      still live, and the rest of the tables is as before. */
  ghost predicate Halted(a: Db, b: Db, runs: set<Id>, sids: set<Id>) {
    && b == a.(runs := b.runs, events := b.events, proposals := b.proposals, schedules := b.schedules)
    && (forall r | r in b.runs ::
        r in a.runs && b.runs[r].input == a.runs[r].input && (r in runs ==> !Live(b.runs[r].state)))
    && (forall s | s in b.schedules ::
        s in a.schedules && (b.schedules[s].state.Enabled? ==> s !in sids && b.schedules[s] == a.schedules[s]))
  }

  lemma HaltKeepsInv(db: Db, runs: set<Id>, reason: Reason, sids: set<Id>, cfg: Config, clock: int)
    requires Inv(db, cfg, clock) && sids <= db.schedules.Keys
    ensures var b := PauseSchedules(SweepRuns(db, runs, Stop, reason), sids, reason);
            Sound(db, b, cfg, clock) && Halted(db, b, runs, sids)
  {
    hide Inv, SweepRuns, PauseSchedules;
    hide LogsAdvance, WorkspacesAdvance, GrantsAdvance, ProposalsAdvance, InterfacesAdvance, SchedulesAdvance;
    var swept := SweepRuns(db, runs, Stop, reason);
    SweepKeepsInv(db, runs, Stop, reason, cfg, clock);
    SweepFrame(db, runs, Stop, reason);
    var b := PauseSchedules(swept, sids, reason);
    PauseKeepsInv(swept, sids, reason, cfg, clock);
    PausedSchedulesOnly(swept, sids, reason);
    Then(db, swept, b, cfg, clock);
    PausedRunKeys(swept, sids, reason);
    forall r | r in b.runs ensures r in db.runs && b.runs[r].input == db.runs[r].input
        && (r in runs ==> !Live(b.runs[r].state))
    {
      assert RunAdvances(db.runs[r], swept.runs[r]) && RunAdvances(swept.runs[r], b.runs[r]);
      if r in runs { StoppedRun(db, runs, reason, r); }
    }
  }

  lemma PausedRunKeys(db: Db, sids: set<Id>, reason: Reason)
    ensures PauseSchedules(db, sids, reason).runs.Keys == db.runs.Keys
  {
    SweepFrame(PausedOnly(db, sids, reason), RunsOf(db, sids), Stop, reason);
    hide SweepRuns;
  }

  // ---------------------------------------------------------------- deletions

  lemma BuriedWorkspaceLive(db: Db, b: Db, wid: Id, cfg: Config)
    requires LiveInv(db, cfg) && b == db.(workspaces := b.workspaces)
    requires forall w | w in db.workspaces && w != wid :: w in b.workspaces && b.workspaces[w] == db.workspaces[w]
    requires forall r | r in db.runs && Live(db.runs[r].state) :: db.runs[r].input.workspaceId != wid
    requires forall s | s in db.schedules && db.schedules[s].state.Enabled? :: db.schedules[s].workspaceId != wid
    ensures LiveInv(b, cfg)
  {
    forall r | r in b.runs && Live(b.runs[r].state) ensures RunLive(b, cfg, b.runs[r]) {
      assert RunLive(db, cfg, db.runs[r]);
    }
    forall s | s in b.schedules && b.schedules[s].state.Enabled? ensures ScheduleLive(b, cfg, b.schedules[s]) {
      assert ScheduleLive(db, cfg, db.schedules[s]);
    }
  }

  lemma BuriedHistories(cfg: Config, a: map<Id, Workspace>, runs: map<Id, Run>, wid: Id, ws: Workspace)
    requires HistoryInv(cfg, a, runs) && ws.history == [] && WorkspaceInv(cfg, ws)
    requires forall r | r in runs && Live(runs[r].state) :: runs[r].input.workspaceId != wid
    ensures HistoryInv(cfg, a[wid := ws], runs)
  {
    hide WorkspaceInv;
    forall r | r in runs ensures CapturedInv(a[wid := ws], runs[r]) {
      assert CapturedInv(a, runs[r]);
    }
  }

  lemma BuryWorkspaceKeepsInv(db: Db, wid: Id, cfg: Config, clock: int)
    requires Inv(db, cfg, clock)
    requires forall r | r in db.runs && Live(db.runs[r].state) :: db.runs[r].input.workspaceId != wid
    requires forall s | s in db.schedules && db.schedules[s].state.Enabled? :: db.schedules[s].workspaceId != wid
    ensures Sound(db, BuryWorkspace(db, wid), cfg, clock)
  {
    hide RowsOf, LogsInv, ExclusiveInv, LiveInv, HistoryInv, ChainInv, ProposalsInv, RequestsInv, RefreshesInv,
        SchedulesInv;
    hide H.ValidImport;
    var b := BuryWorkspace(db, wid);
    assert WorkspaceInv(cfg, b.workspaces[wid]) by {
      Empty();
      HL.ImportIsStored(cfg.codec, []);
    }
    hide WorkspaceInv;
    BuriedWorkspaceLive(db, b, wid, cfg);
    BuriedHistories(cfg, db.workspaces, db.runs, wid, b.workspaces[wid]);
    WorkspacesKeepInv(db, b, cfg, clock);
  }

  /** An enabled schedule is not deleted. */
  lemma EnabledStands(db: Db, s: Id, cfg: Config, clock: int)
    requires Inv(db, cfg, clock) && s in db.schedules && db.schedules[s].state.Enabled?
    ensures !db.schedules[s].deleted
  {
    hide RowsOf, LogsInv, ExclusiveInv, HistoryInv, ChainInv, ProposalsInv, RequestsInv, RefreshesInv, SchedulesInv;
    assert ScheduleLive(db, cfg, db.schedules[s]);
  }

  lemma DeleteWorkspaceKeepsInv(db: Db, wid: Id, cfg: Config, clock: int)
    requires Inv(db, cfg, clock)
    ensures Sound(db, DeleteWorkspace(db, wid), cfg, clock)
  {
    hide Inv, Advances, SweepRuns, PauseSchedules, BuryWorkspace;
    var halted := PauseSchedules(SweepRuns(db, RunsIn(db, wid), Stop, WorkspaceDeleted), SchedulesIn(db, wid),
                                 WorkspaceDeleted);
    HaltKeepsInv(db, RunsIn(db, wid), WorkspaceDeleted, SchedulesIn(db, wid), cfg, clock);
    forall s | s in halted.schedules && halted.schedules[s].state.Enabled?
      ensures halted.schedules[s].workspaceId != wid
    {
      EnabledStands(db, s, cfg, clock);
    }
    BuryWorkspaceKeepsInv(halted, wid, cfg, clock);
    Then(db, halted, BuryWorkspace(halted, wid), cfg, clock);
  }

  lemma BuriedInterfaceLive(db: Db, b: Db, iid: Id, cfg: Config)
    requires LiveInv(db, cfg) && b == db.(interfaces := b.interfaces)
    requires forall i | i in db.interfaces && i != iid :: i in b.interfaces && b.interfaces[i] == db.interfaces[i]
    requires forall r | r in db.runs && Live(db.runs[r].state) :: iid !in db.runs[r].input.interfaceIds
    requires forall s | s in db.schedules && db.schedules[s].state.Enabled? :: db.schedules[s].interfaceId != iid
    ensures LiveInv(b, cfg)
  {
    forall r | r in b.runs && Live(b.runs[r].state) ensures RunLive(b, cfg, b.runs[r]) {
      assert RunLive(db, cfg, db.runs[r]);
    }
    forall s | s in b.schedules && b.schedules[s].state.Enabled? ensures ScheduleLive(b, cfg, b.schedules[s]) {
      assert ScheduleLive(db, cfg, db.schedules[s]);
    }
  }

  lemma BuriedChain(interfaces: map<Id, Interface>, revisions: map<(Id, nat), Revision>, iid: Id)
    requires ChainInv(interfaces, revisions) && iid in interfaces
    ensures ChainInv(interfaces[iid := interfaces[iid].(deleted := true)], revisions)
  {}

  lemma BuryInterfaceKeepsInv(db: Db, iid: Id, cfg: Config, clock: int)
    requires Inv(db, cfg, clock) && InterfaceLive(db.interfaces, iid)
    requires forall r | r in db.runs && Live(db.runs[r].state) :: iid !in db.runs[r].input.interfaceIds
    requires forall s | s in db.schedules && db.schedules[s].state.Enabled? :: db.schedules[s].interfaceId != iid
    ensures Sound(db, BuryInterface(db, iid), cfg, clock)
  {
    hide RowsOf, LogsInv, ExclusiveInv, LiveInv, HistoryInv, ChainInv, ProposalsInv, RequestsInv, RefreshesInv,
        SchedulesInv;
    var mid := db.(interfaces := db.interfaces[iid := db.interfaces[iid].(deleted := true)]);
    BuriedInterfaceLive(db, mid, iid, cfg);
    BuriedChain(db.interfaces, db.revisions, iid);
    InterfacesKeepInv(db, mid, cfg, clock);
    var b := BuryInterface(db, iid);
    SettledProposals(mid, b.proposals);
    ProposalsKeepInv(mid, b, cfg, clock);
    Then(db, mid, b, cfg, clock);
  }

  /** Proposals that only turn invalidated. */
  lemma SettledProposals(db: Db, proposals: map<Id, Proposal>)
    requires ProposalsInv(db.proposals, db.runs, db.schedules) && proposals.Keys == db.proposals.Keys
    requires forall p | p in proposals ::
             proposals[p] == db.proposals[p] || proposals[p] == db.proposals[p].(state := Invalidated)
    ensures ProposalsAdvance(db.proposals, proposals) && ProposalsInv(proposals, db.runs, db.schedules)
  {
    forall p | p in proposals ensures ProposalInv(proposals[p], db.runs, db.schedules) {
      assert ProposalInv(db.proposals[p], db.runs, db.schedules);
    }
  }

  lemma DeleteInterfaceKeepsInv(db: Db, iid: Id, expected: nat, cfg: Config, clock: int)
    requires Inv(db, cfg, clock) && DeleteInterface(db, iid, expected).Ok?
    ensures Sound(db, DeleteInterface(db, iid, expected).value, cfg, clock)
  {
    hide Inv, Advances, SweepRuns, PauseSchedules, BuryInterface;
    var halted := PauseSchedules(SweepRuns(db, RunsUsing(db, iid), Stop, InterfaceDeleted), SchedulesTargeting(db, iid),
                                 InterfaceDeleted);
    HaltKeepsInv(db, RunsUsing(db, iid), InterfaceDeleted, SchedulesTargeting(db, iid), cfg, clock);
    forall s | s in halted.schedules && halted.schedules[s].state.Enabled?
      ensures halted.schedules[s].interfaceId != iid
    {
      EnabledStands(db, s, cfg, clock);
    }
    BuryInterfaceKeepsInv(halted, iid, cfg, clock);
    Then(db, halted, BuryInterface(halted, iid), cfg, clock);
  }

  // ---------------------------------------------------------------- revocation

  ghost predicate Relies(refs: seq<GrantRef>, gone: set<Id>) { exists i | 0 <= i < |refs| :: refs[i].id in gone }

  lemma RetiredLive(db: Db, b: Db, gone: set<Id>, cfg: Config)
    requires LiveInv(db, cfg) && b == db.(grants := b.grants)
    requires forall g | g in db.grants && g !in gone :: g in b.grants && b.grants[g] == db.grants[g]
    requires forall r | r in db.runs && Live(db.runs[r].state) :: !Relies(db.runs[r].input.grantRefs, gone)
    requires forall s | s in db.schedules && db.schedules[s].state.Enabled? :: !Relies(db.schedules[s].grantRefs, gone)
    ensures LiveInv(b, cfg)
  {
    forall r | r in b.runs && Live(b.runs[r].state) ensures RunLive(b, cfg, b.runs[r]) {
      var run := db.runs[r];
      assert RunLive(db, cfg, run);
      forall i | 0 <= i < |run.input.grantRefs|
        ensures GrantLive(b.grants, cfg, run.input.workspaceId, run.input.modelId, run.input.grantRefs[i])
      {
        assert GrantLive(db.grants, cfg, run.input.workspaceId, run.input.modelId, run.input.grantRefs[i]);
      }
    }
    forall s | s in b.schedules && b.schedules[s].state.Enabled? ensures ScheduleLive(b, cfg, b.schedules[s]) {
      var x := db.schedules[s];
      assert ScheduleLive(db, cfg, x);
      forall i | 0 <= i < |x.grantRefs| ensures GrantLive(b.grants, cfg, x.workspaceId, x.modelId, x.grantRefs[i]) {
        assert GrantLive(db.grants, cfg, x.workspaceId, x.modelId, x.grantRefs[i]);
      }
    }
  }

  lemma RetireKeepsInv(db: Db, b: Db, gone: set<Id>, cfg: Config, clock: int)
    requires b == db.(grants := b.grants) && b.grants.Keys == db.grants.Keys
    requires forall g | g in db.grants :: b.grants[g] == (if g in gone then Retired(db.grants[g]) else db.grants[g])
    requires forall r | r in db.runs && Live(db.runs[r].state) :: !Relies(db.runs[r].input.grantRefs, gone)
    requires forall s | s in db.schedules && db.schedules[s].state.Enabled? :: !Relies(db.schedules[s].grantRefs, gone)
    requires Inv(db, cfg, clock)
    ensures Sound(db, b, cfg, clock)
  {
    hide RowsOf, LogsInv, ExclusiveInv, LiveInv, HistoryInv, ChainInv, ProposalsInv, RequestsInv, RefreshesInv,
        SchedulesInv;
    RetiredLive(db, b, gone, cfg);
    GrantsKeepInv(db, b, cfg, clock);
  }

  lemma WithdrawKeepsInv(db: Db, gone: set<Id>, cfg: Config, clock: int)
    requires Inv(db, cfg, clock)
    ensures Sound(db, WithdrawRequests(db, gone), cfg, clock)
  {
    hide Inv, Advances;
    RequestsKept(db, WithdrawRequests(db, gone).tools, cfg, clock);
  }

  lemma RevokeGrantKeepsInv(db: Db, gid: Id, generation: nat, cfg: Config, clock: int)
    requires Inv(db, cfg, clock) && RevokeGrant(db, gid, generation).Ok?
    ensures Sound(db, RevokeGrant(db, gid, generation).value, cfg, clock)
  {
    hide Inv, Advances, SweepRuns, PauseSchedules, WithdrawRequests;
    var halted := PauseSchedules(SweepRuns(db, RunsGranted(db, gid), Stop, GrantRevoked), SchedulesGranted(db, gid),
                                 GrantRevoked);
    HaltKeepsInv(db, RunsGranted(db, gid), GrantRevoked, SchedulesGranted(db, gid), cfg, clock);
    forall s | s in halted.schedules && halted.schedules[s].state.Enabled?
      ensures !Relies(halted.schedules[s].grantRefs, {gid})
    {
      EnabledStands(db, s, cfg, clock);
    }
    var retired := halted.(grants := halted.grants[gid := Retired(db.grants[gid])]);
    RetireKeepsInv(halted, retired, {gid}, cfg, clock);
    Then(db, halted, retired, cfg, clock);
    WithdrawKeepsInv(retired, RequestsGranted(db, gid), cfg, clock);
    Then(db, retired, WithdrawRequests(retired, RequestsGranted(db, gid)), cfg, clock);
  }

  function EnabledSchedules(db: Db): set<Id> {
    set s | s in db.schedules && !db.schedules[s].deleted && db.schedules[s].state.Enabled?
  }

  function AllRetired(db: Db): Db {
    db.(grants := map g | g in db.grants :: if db.grants[g].revoked then db.grants[g] else Retired(db.grants[g]))
  }

  function AllSettled(db: Db): Db {
    db.(proposals := map p | p in db.proposals ::
          if db.proposals[p].state.Pending? then db.proposals[p].(state := Invalidated) else db.proposals[p])
  }

  lemma AllRetiredKeepsInv(db: Db, cfg: Config, clock: int)
    requires Inv(db, cfg, clock)
    requires forall r | r in db.runs :: !Live(db.runs[r].state)
    requires forall s | s in db.schedules :: !db.schedules[s].state.Enabled?
    ensures Sound(db, AllRetired(db), cfg, clock)
  {
    hide Inv, Advances;
    RetireKeepsInv(db, AllRetired(db), (set g | g in db.grants && !db.grants[g].revoked), cfg, clock);
  }

  lemma AllSettledKeepsInv(db: Db, cfg: Config, clock: int)
    requires Inv(db, cfg, clock)
    ensures Sound(db, AllSettled(db), cfg, clock)
  {
    hide RowsOf, LogsInv, ExclusiveInv, LiveInv, HistoryInv, ChainInv, ProposalsInv, RequestsInv, RefreshesInv,
        SchedulesInv;
    SettledProposals(db, AllSettled(db).proposals);
    ProposalsKeepInv(db, AllSettled(db), cfg, clock);
  }

  lemma FenceModelConfigurationKeepsInv(db: Db, cfg: Config, clock: int)
    requires Inv(db, cfg, clock)
    ensures Sound(db, FenceModelConfiguration(db), cfg, clock)
  {
    hide Inv, Advances, SweepRuns, PauseSchedules, WithdrawRequests, AllRetired, AllSettled, Live;
    var halted := PauseSchedules(SweepRuns(db, db.runs.Keys, Stop, ModelConfigurationChanged), EnabledSchedules(db),
                                 ModelConfigurationChanged);
    HaltKeepsInv(db, db.runs.Keys, ModelConfigurationChanged, EnabledSchedules(db), cfg, clock);
    forall s | s in halted.schedules ensures !halted.schedules[s].state.Enabled? {
      if halted.schedules[s].state.Enabled? { EnabledStands(db, s, cfg, clock); }
    }
    AllRetiredKeepsInv(halted, cfg, clock);
    Then(db, halted, AllRetired(halted), cfg, clock);
    AllSettledKeepsInv(AllRetired(halted), cfg, clock);
    Then(db, AllRetired(halted), AllSettled(AllRetired(halted)), cfg, clock);
    WithdrawKeepsInv(AllSettled(AllRetired(halted)), db.tools.Keys, cfg, clock);
    Then(db, AllSettled(AllRetired(halted)), WithdrawRequests(AllSettled(AllRetired(halted)), db.tools.Keys), cfg,
         clock);
    FenceInStages(db);
  }

  lemma FenceInStages(db: Db)
    ensures var halted :=
            PauseSchedules(SweepRuns(db, db.runs.Keys, Stop, ModelConfigurationChanged), EnabledSchedules(db),
                           ModelConfigurationChanged);
            FenceModelConfiguration(db) == WithdrawRequests(AllSettled(AllRetired(halted)), db.tools.Keys)
  {
    var swept := SweepRuns(db, db.runs.Keys, Stop, ModelConfigurationChanged);
    SweepFrame(db, db.runs.Keys, Stop, ModelConfigurationChanged);
    PausedSchedulesOnly(swept, EnabledSchedules(db), ModelConfigurationChanged);
    hide SweepRuns, PauseSchedules, WithdrawRequests;
  }
}
