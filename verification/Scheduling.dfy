/** Schedules: creation, consent, and the scheduler pass. Every attempt is counted once, and the
    next due minute moves strictly forward. */
module Scheduling {
  import opened Wrappers
  import opened Engine
  import opened Invariant
  import opened Frames
  import opened RunSteps
  import opened Authority
  import opened Admission
  import C = Cron
  import CL = CronLaws
  import H = History

  // ---------------------------------------------------------------- creating and enabling

  lemma NewScheduleCounts(db: Db, b: Db, sid: Id, cfg: Config, clock: int)
    requires SchedulesInv(db, cfg, clock) && sid !in db.schedules && sid in b.schedules
    requires b == db.(schedules := db.schedules[sid := b.schedules[sid]], scheduleRows := b.scheduleRows)
    requires b.schedules[sid].runsStarted == 0 && b.schedules[sid].state.Paused? && CL.FromText(b.schedules[sid].cron)
    ensures SchedulesInv(b, cfg, clock)
  {
    hide C.Matches, CL.FromText;
    forall s | s in b.schedules ensures ScheduleInv(cfg, b.schedules[s], s, b, clock) {
      if s == sid {
        assert AdmittedSlots(b.occurrences, sid) == {};
        assert ScheduledRuns(b.runs, sid) == {};
      } else {
        assert ScheduleInv(cfg, db.schedules[s], s, db, clock);
      }
    }
    forall k | k in b.occurrences
      ensures k.0 in b.schedules && k.1 <= clock && SlotInv(cfg, b.schedules[k.0], k.0, k.1, b.occurrences[k], b.runs)
    {
      assert SlotInv(cfg, db.schedules[k.0], k.0, k.1, db.occurrences[k], db.runs);
    }
  }

  lemma NewScheduleTargets(db: Db, b: Db, sid: Id, cfg: Config)
    requires ProposalsInv(db.proposals, db.runs, db.schedules) && RefreshesInv(db) && LiveInv(db, cfg)
    requires sid !in db.schedules && sid in b.schedules && !b.schedules[sid].state.Enabled?
    requires b == db.(schedules := db.schedules[sid := b.schedules[sid]], scheduleRows := b.scheduleRows)
    ensures ProposalsInv(b.proposals, b.runs, b.schedules) && RefreshesInv(b) && LiveInv(b, cfg)
  {
    forall p | p in b.proposals ensures ProposalInv(b.proposals[p], b.runs, b.schedules) {
      assert ProposalInv(db.proposals[p], db.runs, db.schedules);
    }
    forall r | r in b.runs && r in b.events ensures RefreshInv(b.runs[r], b.events[r], b) {
      assert RefreshInv(db.runs[r], db.events[r], db);
    }
    forall r | r in b.runs && Live(b.runs[r].state) ensures RunLive(b, cfg, b.runs[r]) {
      assert RunLive(db, cfg, db.runs[r]);
    }
    forall s | s in b.schedules && b.schedules[s].state.Enabled? ensures ScheduleLive(b, cfg, b.schedules[s]) {
      assert ScheduleLive(db, cfg, db.schedules[s]);
    }
  }

  lemma NewScheduleKeepsInv(db: Db, b: Db, sid: Id, cfg: Config, clock: int)
    requires Inv(db, cfg, clock) && sid !in db.schedules && sid in b.schedules
    requires b == db.(schedules := db.schedules[sid := b.schedules[sid]], scheduleRows := db.scheduleRows + [sid])
    requires b.schedules[sid].runsStarted == 0 && b.schedules[sid].state.Paused? && CL.FromText(b.schedules[sid].cron)
    ensures Sound(db, b, cfg, clock)
  {
    hide CL.FromText;
    hide RowsOf, LogsInv, ExclusiveInv, LiveInv, HistoryInv, ChainInv, ProposalsInv, RequestsInv, RefreshesInv,
        SchedulesInv;
    RowsGrow(db.scheduleRows, db.schedules.Keys, sid);
    assert b.schedules.Keys == db.schedules.Keys + {sid};
    NewScheduleCounts(db, b, sid, cfg, clock);
    NewScheduleTargets(db, b, sid, cfg);
  }

  lemma CreateScheduleKeepsInv(db: Db, env: Env, v: ScheduleInput, source: Option<Id>, sid: Id)
    requires Inv(db, env.cfg, env.now) && Unused(db, sid) && CreateSchedule(db, env, v, source, sid).Ok?
    ensures Sound(db, CreateSchedule(db, env, v, source, sid).value, env.cfg, env.now)
  {
    hide Inv, Advances, H.ValidImport, TouchWorkspace, ScheduleScope, ValidSchedule, CheckGrants, Emit, C.Parse;
    hide CL.FromText;
    Empty();
    TouchKeepsInv(db, v.workspaceId, [], false, env.cfg, env.now);
    var touched := TouchWorkspace(db, v.workspaceId, [], false).value;
    var schedule := Schedule(v.workspaceId, v.interfaceId, v.prompt, v.modelId, ParsedCron(env, v), v.endAt, v.maxRuns,
                             v.budgets, v.grantRefs, 1, Paused, 0, None, None, None, false);
    var added := touched.(schedules := touched.schedules[sid := schedule],
                          scheduleRows := touched.scheduleRows + [sid]);
    ParsedFromText(env, v);
    NewScheduleKeepsInv(touched, added, sid, env.cfg, env.now);
    Then(db, touched, added, env.cfg, env.now);
    if source.Some? && source.value in added.runs {
      EmitKeepsInv(added, source.value, ScheduleCreated(sid), env.cfg, env.now);
      Then(db, added, Emit(added, source.value, ScheduleCreated(sid)), env.cfg, env.now);
    }
  }

  function ParsedCron(env: Env, v: ScheduleInput): C.Cron
    requires ValidSchedule(env, v)
  {
    C.Parse(v.cron).value
  }

  lemma ParsedFromText(env: Env, v: ScheduleInput)
    requires ValidSchedule(env, v)
    ensures CL.FromText(ParsedCron(env, v))
  {
    assert C.Parse(v.cron) == Some(ParsedCron(env, v));
    hide C.Parse;
  }

  /** One schedule changes without starting an attempt. */
  lemma OneScheduleKeepsInv(db: Db, sid: Id, next: Schedule, cfg: Config, clock: int)
    requires Inv(db, cfg, clock) && sid in db.schedules
    requires ScheduleAdvances(db.schedules[sid], next, clock) && next.runsStarted == db.schedules[sid].runsStarted
    requires DueInv(cfg, next, sid, db.occurrences) && (next.state.Ended? ==> Exhausted(next, clock))
    requires next.state.Enabled? ==> ScheduleLive(db, cfg, next)
    ensures Sound(db, db.(schedules := db.schedules[sid := next]), cfg, clock)
  {
    var b := db.(schedules := db.schedules[sid := next]);
    hide RowsOf, LogsInv, ExclusiveInv, LiveInv, HistoryInv, ChainInv, ProposalsInv, RequestsInv, RefreshesInv,
        SchedulesInv;
    hide DueInv, Exhausted, ScheduleLive;
    OtherSchedules(db, sid, next, cfg, clock);
    OneScheduleLive(db, sid, next, cfg);
    SchedulesKeepInv(db, b, cfg, clock);
  }

  lemma OtherSchedules(db: Db, sid: Id, next: Schedule, cfg: Config, clock: int)
    requires SchedulesInv(db, cfg, clock) && sid in db.schedules
    requires DueInv(cfg, next, sid, db.occurrences) && (next.state.Ended? ==> Exhausted(next, clock))
    ensures var b := db.schedules[sid := next];
            forall s | s in b :: DueInv(cfg, b[s], s, db.occurrences) && (b[s].state.Ended? ==> Exhausted(b[s], clock))
  {
    hide DueInv, CountInv, CL.FromText;
    forall s | s in db.schedules
      ensures DueInv(cfg, db.schedules[s], s, db.occurrences)
              && (db.schedules[s].state.Ended? ==> Exhausted(db.schedules[s], clock))
    {
      assert ScheduleInv(cfg, db.schedules[s], s, db, clock);
    }
  }

  lemma OneScheduleLive(db: Db, sid: Id, next: Schedule, cfg: Config)
    requires LiveInv(db, cfg) && sid in db.schedules && (next.state.Enabled? ==> ScheduleLive(db, cfg, next))
    ensures LiveInv(db.(schedules := db.schedules[sid := next]), cfg)
  {
    var b := db.(schedules := db.schedules[sid := next]);
    forall r | r in b.runs && Live(b.runs[r].state) ensures RunLive(b, cfg, b.runs[r]) {
      assert RunLive(db, cfg, db.runs[r]);
    }
    forall s | s in b.schedules && b.schedules[s].state.Enabled? ensures ScheduleLive(b, cfg, b.schedules[s]) {
      if s != sid { assert ScheduleLive(db, cfg, db.schedules[s]); }
    }
  }

  /** A due minute computed now lies beyond every minute settled so far. */
  lemma DueAhead(db: Db, sid: Id, next: Schedule, cfg: Config, clock: int)
    requires SchedulesInv(db, cfg, clock) && next.nextRunAt == C.NextDue(next.cron, cfg.calendar, clock, next.endAt)
    ensures DueInv(cfg, next, sid, db.occurrences)
  {
    CL.NextDueIsLeast(next.cron, cfg.calendar, clock, next.endAt);
    hide C.NextDue, C.Matches;
    if next.nextRunAt.Some? {
      assert CL.Due(next.cron, cfg.calendar, clock, next.endAt, next.nextRunAt.value);
      forall k | k in db.occurrences && k.0 == sid ensures k.1 < next.nextRunAt.value {}
    }
  }

  lemma EnableKeepsInv(db: Db, env: Env, sid: Id, expected: nat, consent: Consent)
    requires Inv(db, env.cfg, env.now) && EnableSchedule(db, env, sid, expected, consent).Ok?
    ensures Sound(db, EnableSchedule(db, env, sid, expected, consent).value, env.cfg, env.now)
  {
    hide RowsOf, LogsInv, ExclusiveInv, LiveInv, HistoryInv, ChainInv, ProposalsInv, RequestsInv, RefreshesInv,
        SchedulesInv;
    hide C.NextDue, DueInv, GrantsLive, CheckGrants, Advances;
    var s := db.schedules[sid];
    var next := EnableSchedule(db, env, sid, expected, consent).value.schedules[sid];
    GrantsChecked(db, env, s.workspaceId, s.modelId, s.grantRefs);
    DueAhead(db, sid, next, env.cfg, env.now);
    assert ScheduleLive(db, env.cfg, next);
    OneScheduleKeepsInv(db, sid, next, env.cfg, env.now);
  }

  lemma DeletedKeepsInv(db: Db, sid: Id, cfg: Config, clock: int)
    requires Inv(db, cfg, clock) && sid in db.schedules && db.schedules[sid].state.Paused?
    ensures Sound(db, db.(schedules := db.schedules[sid := db.schedules[sid].(deleted := true)]), cfg, clock)
  {
    hide Inv, Advances;
    OneScheduleKeepsInv(db, sid, db.schedules[sid].(deleted := true), cfg, clock);
  }

  lemma DeleteScheduleKeepsInv(db: Db, sid: Id, expected: nat, cfg: Config, clock: int)
    requires Inv(db, cfg, clock) && DeleteSchedule(db, sid, expected).Ok?
    ensures Sound(db, DeleteSchedule(db, sid, expected).value, cfg, clock)
  {
    hide Inv, Advances, PauseSchedules;
    var paused := PauseSchedules(db, {sid}, ScheduleDeleted);
    PauseKeepsInv(db, {sid}, ScheduleDeleted, cfg, clock);
    PausedSchedulesOnly(db, {sid}, ScheduleDeleted);
    DeletedKeepsInv(paused, sid, cfg, clock);
    Then(db, paused, DeleteSchedule(db, sid, expected).value, cfg, clock);
  }

  // ---------------------------------------------------------------- settling a due minute

  /** What a settled minute changes: its occurrence, its schedule's count and next minute, and the
      run it admitted, if any. */
  ghost predicate Settles(a: Db, b: Db, cfg: Config, clock: int, sid: Id, slot: int, outcome: Occurrence) {
    && sid in a.schedules && sid in b.schedules
    && b.schedules == a.schedules[sid := b.schedules[sid]] && b.occurrences == a.occurrences[(sid, slot) := outcome]
    && var s := a.schedules[sid];
    && s.state.Enabled? && s.nextRunAt == Some(slot) && slot <= clock
    && b.schedules[sid] == s.(nextRunAt := C.NextDue(s.cron, cfg.calendar, clock, s.endAt),
                              runsStarted := s.runsStarted + (if outcome.Admitted? then 1 else 0),
                              lastRunId := b.schedules[sid].lastRunId, reason := b.schedules[sid].reason)
    && (if outcome.Admitted? then
          && outcome.runId !in a.runs && outcome.runId in b.runs
             && b.runs == a.runs[outcome.runId := b.runs[outcome.runId]]
          && s.runsStarted < s.maxRuns && clock < slot + C.MINUTE
          && var run := b.runs[outcome.runId];
          run.schedule.Some? && run.schedule.value.scheduleId == sid && run.schedule.value.version == s.version
              && run.createdAt == clock
        else b.runs == a.runs)
  }

  lemma SettledSlotSet(occurrences: map<(Id, int), Occurrence>, k: (Id, int), outcome: Occurrence, s: Id)
    requires k !in occurrences
    ensures AdmittedSlots(occurrences[k := outcome], s) ==
            AdmittedSlots(occurrences, s) + (if outcome.Admitted? && k.0 == s then {k} else {})
  {}

  lemma SettledRunSet(runs: map<Id, Run>, rid: Id, run: Run, s: Id)
    requires rid !in runs
    ensures ScheduledRuns(runs[rid := run], s) ==
            ScheduledRuns(runs, s) + (if run.schedule.Some? && run.schedule.value.scheduleId == s then {rid} else {})
  {}

  lemma SettledCount(a: Db, b: Db, cfg: Config, clock: int, sid: Id, slot: int, outcome: Occurrence, s: Id)
    requires Settles(a, b, cfg, clock, sid, slot, outcome) && s in a.schedules
    requires (sid, slot) !in a.occurrences
    requires CountInv(a.schedules[s], s, a.occurrences, a.runs)
    ensures CountInv(b.schedules[s], s, b.occurrences, b.runs)
  {
    hide C.NextDue;
    SettledSlotSet(a.occurrences, (sid, slot), outcome, s);
    if outcome.Admitted? { SettledRunSet(a.runs, outcome.runId, b.runs[outcome.runId], s); }
    hide AdmittedSlots, ScheduledRuns;
    assert (sid, slot) !in AdmittedSlots(a.occurrences, s) by { NotAmong(a, (sid, slot), s); }
    if outcome.Admitted? {
      assert outcome.runId !in ScheduledRuns(a.runs, s) by { NotARun(a, outcome.runId, s); }
    }
  }

  lemma SettledVersions(a: Db, b: Db, cfg: Config, clock: int, sid: Id, slot: int, outcome: Occurrence, s: Id)
    requires Settles(a, b, cfg, clock, sid, slot, outcome) && s in a.schedules
    requires VersionsInv(a.schedules[s], s, a.runs)
    ensures VersionsInv(b.schedules[s], s, b.runs)
  {
    hide C.NextDue;
    if outcome.Admitted? { SettledRunSet(a.runs, outcome.runId, b.runs[outcome.runId], s); }
    hide ScheduledRuns;
  }

  lemma NotAmong(a: Db, k: (Id, int), s: Id)
    requires k !in a.occurrences
    ensures k !in AdmittedSlots(a.occurrences, s)
  {}

  lemma NotARun(a: Db, rid: Id, s: Id)
    requires rid !in a.runs
    ensures rid !in ScheduledRuns(a.runs, s)
  {}

  /** The due minute has not been settled before: the duplicate check never fires. */
  lemma DueIsNew(db: Db, sid: Id, cfg: Config, clock: int)
    requires SchedulesInv(db, cfg, clock) && sid in db.schedules
    requires db.schedules[sid].state.Enabled? && db.schedules[sid].nextRunAt.Some?
    ensures (sid, db.schedules[sid].nextRunAt.value) !in db.occurrences
    ensures DueInv(cfg, db.schedules[sid], sid, db.occurrences)
  {
    hide C.Matches;
    assert ScheduleInv(cfg, db.schedules[sid], sid, db, clock);
    var due := db.schedules[sid].nextRunAt.value;
    assert forall k | k in db.occurrences && k.0 == sid :: k.1 < due;
    assert (sid, due).1 == due;
  }

  lemma SettledDue(a: Db, b: Db, cfg: Config, clock: int, sid: Id, slot: int, outcome: Occurrence, s: Id)
    requires Settles(a, b, cfg, clock, sid, slot, outcome) && s in a.schedules
    requires SchedulesInv(a, cfg, clock)
    ensures DueInv(cfg, b.schedules[s], s, b.occurrences)
  {
    hide C.NextDue, C.Matches, SchedulesInv, DueInv;
    if s == sid {
      SettledOwnDue(a, b, cfg, clock, sid, slot, outcome);
    } else {
      DueOf(a, s, cfg, clock);
      SettledElsewhere(a, b, cfg, clock, sid, slot, outcome, s);
      DueOfFewer(cfg, a.schedules[s], s, a.occurrences, b.occurrences);
    }
  }

  lemma SettledElsewhere(a: Db, b: Db, cfg: Config, clock: int, sid: Id, slot: int, outcome: Occurrence, s: Id)
    requires Settles(a, b, cfg, clock, sid, slot, outcome) && s in a.schedules && s != sid
    ensures s in b.schedules && b.schedules[s] == a.schedules[s]
    ensures forall k | k in b.occurrences && k.0 == s :: k in a.occurrences
  {
    hide C.NextDue;
  }

  lemma DueOfFewer(cfg: Config, s: Schedule, sid: Id, a: map<(Id, int), Occurrence>, b: map<(Id, int), Occurrence>)
    requires DueInv(cfg, s, sid, a) && forall k | k in b && k.0 == sid :: k in a
    ensures DueInv(cfg, s, sid, b)
  {
    hide C.Matches;
  }

  lemma DueOf(a: Db, s: Id, cfg: Config, clock: int)
    requires SchedulesInv(a, cfg, clock) && s in a.schedules
    ensures DueInv(cfg, a.schedules[s], s, a.occurrences)
  {
    hide DueInv, CountInv, VersionsInv, SlotsInv, CL.FromText;
    assert ScheduleInv(cfg, a.schedules[s], s, a, clock);
  }

  lemma SettledOwnDue(a: Db, b: Db, cfg: Config, clock: int, sid: Id, slot: int, outcome: Occurrence)
    requires Settles(a, b, cfg, clock, sid, slot, outcome) && SchedulesInv(a, cfg, clock)
    ensures DueInv(cfg, b.schedules[sid], sid, b.occurrences)
  {
    DueAhead(a, sid, b.schedules[sid], cfg, clock);
    CL.NextDueIsLeast(b.schedules[sid].cron, cfg.calendar, clock, b.schedules[sid].endAt);
    hide C.NextDue, C.Matches, SchedulesInv;
    assert forall k | k in b.occurrences && k.0 == sid :: k == (sid, slot) || k in a.occurrences;
  }

  lemma SettledSlots(a: Db, b: Db, cfg: Config, clock: int, sid: Id, slot: int, outcome: Occurrence)
    requires Settles(a, b, cfg, clock, sid, slot, outcome) && SlotsInv(a, cfg, clock)
    requires DueInv(cfg, a.schedules[sid], sid, a.occurrences)
    ensures SlotsInv(b, cfg, clock)
  {
    hide C.NextDue, C.Matches;
    var settled := (sid, slot);
    forall k | k in b.occurrences
      ensures k.0 in b.schedules && k.1 <= clock && SlotInv(cfg, b.schedules[k.0], k.0, k.1, b.occurrences[k], b.runs)
    {
      if k != settled { assert SlotInv(cfg, a.schedules[k.0], k.0, k.1, a.occurrences[k], a.runs); }
    }
    forall k, l | k in b.occurrences && l in b.occurrences && k != l && b.occurrences[k].Admitted?
        && b.occurrences[l].Admitted?
      ensures b.occurrences[k].runId != b.occurrences[l].runId
    {
      if k != settled { assert SlotInv(cfg, a.schedules[k.0], k.0, k.1, a.occurrences[k], a.runs); }
      if l != settled { assert SlotInv(cfg, a.schedules[l.0], l.0, l.1, a.occurrences[l], a.runs); }
    }
  }

  lemma SettledSchedules(a: Db, b: Db, cfg: Config, clock: int, sid: Id, slot: int, outcome: Occurrence)
    requires Settles(a, b, cfg, clock, sid, slot, outcome) && SchedulesInv(a, cfg, clock)
    ensures SchedulesInv(b, cfg, clock)
  {
    hide SlotsInv, ScheduleInv, Settles, LinksInv;
    SettledLinks(a, b, cfg, clock, sid, slot, outcome);
    SettledIsDue(a, b, cfg, clock, sid, slot, outcome);
    SettledSlots(a, b, cfg, clock, sid, slot, outcome);
    forall s | s in b.schedules ensures ScheduleInv(cfg, b.schedules[s], s, b, clock) {
      SettledSchedule(a, b, cfg, clock, sid, slot, outcome, s);
    }
  }

  lemma SettledLinks(a: Db, b: Db, cfg: Config, clock: int, sid: Id, slot: int, outcome: Occurrence)
    requires Settles(a, b, cfg, clock, sid, slot, outcome) && LinksInv(a.runs, a.schedules)
    ensures LinksInv(b.runs, b.schedules)
  {
    hide C.NextDue;
  }

  lemma SettledIsDue(a: Db, b: Db, cfg: Config, clock: int, sid: Id, slot: int, outcome: Occurrence)
    requires Settles(a, b, cfg, clock, sid, slot, outcome) && SchedulesInv(a, cfg, clock)
    ensures sid in a.schedules && DueInv(cfg, a.schedules[sid], sid, a.occurrences)
  {
    hide SchedulesInv, C.NextDue;
    DueIsNew(a, sid, cfg, clock);
  }

  lemma SettledSchedule(a: Db, b: Db, cfg: Config, clock: int, sid: Id, slot: int, outcome: Occurrence, s: Id)
    requires Settles(a, b, cfg, clock, sid, slot, outcome) && SchedulesInv(a, cfg, clock) && s in b.schedules
    ensures ScheduleInv(cfg, b.schedules[s], s, b, clock)
  {
    hide C.NextDue, DueInv, CountInv, SlotsInv, VersionsInv, CL.FromText;
    DueIsNew(a, sid, cfg, clock);
    assert s in a.schedules && ScheduleInv(cfg, a.schedules[s], s, a, clock);
    SettledCount(a, b, cfg, clock, sid, slot, outcome, s);
    SettledVersions(a, b, cfg, clock, sid, slot, outcome, s);
    SettledDue(a, b, cfg, clock, sid, slot, outcome, s);
  }

  /** What settling adds to the tables of `m`, which already hold the admitted run. */
  lemma SettledRest(m: Db, b: Db, sid: Id, cfg: Config, clock: int)
    requires InvButSchedules(m, cfg) && sid in m.schedules && sid in b.schedules
    requires b == m.(schedules := m.schedules[sid := b.schedules[sid]], occurrences := b.occurrences)
    requires ScheduleAdvances(m.schedules[sid], b.schedules[sid], clock)
    requires m.schedules[sid].state.Enabled? && b.schedules[sid].deleted == m.schedules[sid].deleted
    ensures InvButSchedules(b, cfg)
  {
    hide RowsOf, LogsInv, ExclusiveInv, HistoryInv, ChainInv, RequestsInv;
    var n := m.(schedules := b.schedules);
    assert ScheduleLive(m, cfg, m.schedules[sid]);
    SchedulesKeepTargets(m, n, clock);
    OneScheduleLive(m, sid, b.schedules[sid], cfg);
    hide LiveInv, ProposalsInv;
    LiveElsewhere(n, b, cfg);
    RefreshesElsewhere(n, b);
    assert b.schedules.Keys == m.schedules.Keys;
  }

  lemma SettledAdvances(m: Db, b: Db, sid: Id, clock: int)
    requires sid in m.schedules && sid in b.schedules
    requires b == m.(schedules := m.schedules[sid := b.schedules[sid]], occurrences := b.occurrences)
    requires ScheduleAdvances(m.schedules[sid], b.schedules[sid], clock) && Kept(m.occurrences, b.occurrences)
    ensures Advances(m, b, clock)
  {}

  /** From tables `a` in order, through the admitted run in `m`, to the settled minute in `b`. */
  lemma SettleKeepsInv(a: Db, m: Db, b: Db, sid: Id, slot: int, outcome: Occurrence, cfg: Config, clock: int)
    requires Inv(a, cfg, clock) && InvButSchedules(m, cfg) && Advances(a, m, clock) && m.schedules == a.schedules
    requires m.occurrences == a.occurrences && m.runs == b.runs
    requires Settles(a, b, cfg, clock, sid, slot, outcome)
    requires b == m.(schedules := b.schedules, occurrences := b.occurrences)
    ensures Sound(a, b, cfg, clock)
  {
    hide RowsOf, LogsInv, ExclusiveInv, LiveInv, HistoryInv, ChainInv, ProposalsInv, RequestsInv, RefreshesInv,
        SchedulesInv;
    hide C.NextDue, Advances;
    DueIsNew(a, sid, cfg, clock);
    SettledSchedules(a, b, cfg, clock, sid, slot, outcome);
    SchedulesInvMoves(m, b, cfg, clock);
    SettledRest(m, b, sid, cfg, clock);
    SettledAdvances(m, b, sid, clock);
    AdvancesTransitive(a, m, b, clock, clock);
  }

  lemma SchedulesInvMoves(m: Db, b: Db, cfg: Config, clock: int)
    requires SchedulesInv(b, cfg, clock) && m.runs == b.runs
    ensures LinksInv(m.runs, b.schedules)
  {}

  // ---------------------------------------------------------------- the scheduler pass

  /** A refused attempt leaves tables that are in order, with the workspace record it touched. */
  lemma RefusedKeepsInv(db: Db, env: Env, value: RunInput, rid: Id, schedule: Option<(Id, Schedule)>)
    requires Inv(db, env.cfg, env.now) && CreateRun(db, env, value, rid, schedule).1.Fail?
    ensures var b := CreateRun(db, env, value, rid, schedule).0;
            Sound(db, b, env.cfg, env.now) && b == db.(workspaces := b.workspaces)
  {
    hide Inv, Advances, TouchWorkspace, Placeable, AddRun, H.RuntimeHistory, H.ValidImport;
    Same(db, env.cfg, env.now);
    if Admissible(db, env, value, rid).Pass?
        && TouchWorkspace(db, value.workspaceId, value.importHistory, schedule.None?).Ok?
    {
      TouchKeepsInv(db, value.workspaceId, value.importHistory, schedule.None?, env.cfg, env.now);
    }
  }

  /** An admitted attempt: the tables with the record touched, and the run placed on them. */
  lemma AdmittedScheduled(db: Db, env: Env, value: RunInput, rid: Id, sid: Id, s: Schedule)
    requires Inv(db, env.cfg, env.now) && sid in db.schedules
    requires CreateRun(db, env, value, rid, Some((sid, s))).1.Pass?
    ensures var touched := TouchWorkspace(db, value.workspaceId, value.importHistory, false);
            && touched.Ok? && Sound(db, touched.value, env.cfg, env.now)
               && touched.value == db.(workspaces := touched.value.workspaces)
            && var m := CreateRun(db, env, value, rid, Some((sid, s))).0;
            && InvButSchedules(m, env.cfg) && Advances(touched.value, m, env.now)
            && m == touched.value.(runs := m.runs, runRows := m.runRows, events := m.events)
            && rid !in db.runs && rid in m.runs && m.runs == db.runs[rid := m.runs[rid]]
            && m.runs[rid].createdAt == env.now && m.runs[rid].schedule.Some?
            && m.runs[rid].schedule.value.scheduleId == sid && m.runs[rid].schedule.value.version == s.version
  {
    hide Inv, Advances, TouchWorkspace, AddRun, H.RuntimeHistory, H.ValidImport, Placeable, RunLive, InvButSchedules;
    TouchKeepsInv(db, value.workspaceId, value.importHistory, false, env.cfg, env.now);
    var placed := TouchWorkspace(db, value.workspaceId, value.importHistory, false).value;
    var link := ScheduleLink(sid, s.version, placed.interfaces[s.interfaceId].revision);
    var run := NewRun(placed, env, value, Some(link), []).(lastSeq := 1);
    Placed(placed, env, value, run);
    InvMeans(placed, env.cfg, env.now);
    AddRunKeeps(placed, rid, run, env.cfg);
    AddRunIgnores(placed, rid, run);
    AddRunElsewhere(placed, rid, run);
    AddRunAdvances(placed, rid, run, env.now);
  }

  lemma InvMeans(db: Db, cfg: Config, clock: int)
    requires Inv(db, cfg, clock)
    ensures InvButSchedules(db, cfg) && db.events.Keys == db.runs.Keys
  {
    LogKeys(db);
    hide RowsOf, LogsInv, ExclusiveInv, LiveInv, HistoryInv, ChainInv, ProposalsInv, RequestsInv, RefreshesInv,
        SchedulesInv;
  }

  /** An enabled schedule with time and attempts left whose minute has come. */
  ghost predicate DueNow(db: Db, env: Env, sid: Id, due: int) {
    && sid in db.schedules && db.schedules[sid].state.Enabled? && db.schedules[sid].nextRunAt == Some(due)
    && due <= env.now < db.schedules[sid].endAt && db.schedules[sid].runsStarted < db.schedules[sid].maxRuns
  }

  function NextOf(db: Db, env: Env, sid: Id): Schedule
    requires sid in db.schedules
  {
    db.schedules[sid].(nextRunAt := C.NextDue(db.schedules[sid].cron, env.cfg.calendar, env.now,
                                              db.schedules[sid].endAt))
  }

  lemma MissedKeepsInv(db: Db, env: Env, sid: Id, due: int)
    requires Inv(db, env.cfg, env.now) && DueNow(db, env, sid, due)
    ensures Sound(db, Settle(db, sid, NextOf(db, env, sid), due, Missed), env.cfg, env.now)
  {
    hide Inv, Advances, C.NextDue, InvButSchedules;
    Same(db, env.cfg, env.now);
    InvMeans(db, env.cfg, env.now);
    SettleKeepsInv(db, db, Settle(db, sid, NextOf(db, env, sid), due, Missed), sid, due, Missed, env.cfg, env.now);
  }

  lemma RefusedAttemptKeepsInv(db: Db, env: Env, sid: Id, due: int, newId: Id)
    requires Inv(db, env.cfg, env.now) && DueNow(db, env, sid, due)
    requires var s := NextOf(db, env, sid); CreateRun(db, env, ScheduledInput(s), newId, Some((sid, s))).1.Fail?
    ensures var s := NextOf(db, env, sid);
            var (placed, outcome) := CreateRun(db, env, ScheduledInput(s), newId, Some((sid, s)));
            Sound(db, Settle(placed, sid, s.(reason := Some(Fault(outcome.error))), due, Refused(outcome.error)),
                  env.cfg, env.now)
  {
    hide Inv, Advances, C.NextDue, InvButSchedules, CreateRun;
    var s := NextOf(db, env, sid);
    var (placed, outcome) := CreateRun(db, env, ScheduledInput(s), newId, Some((sid, s)));
    RefusedKeepsInv(db, env, ScheduledInput(s), newId, Some((sid, s)));
    InvMeans(placed, env.cfg, env.now);
    Same(placed, env.cfg, env.now);
    var b := Settle(placed, sid, s.(reason := Some(Fault(outcome.error))), due, Refused(outcome.error));
    SettleKeepsInv(placed, placed, b, sid, due, Refused(outcome.error), env.cfg, env.now);
    Then(db, placed, b, env.cfg, env.now);
  }

  lemma AdmittedAttemptKeepsInv(db: Db, env: Env, sid: Id, due: int, newId: Id)
    requires Inv(db, env.cfg, env.now) && DueNow(db, env, sid, due) && env.now - due < C.MINUTE
    requires var s := NextOf(db, env, sid); CreateRun(db, env, ScheduledInput(s), newId, Some((sid, s))).1.Pass?
    ensures var s := NextOf(db, env, sid);
            var placed := CreateRun(db, env, ScheduledInput(s), newId, Some((sid, s))).0;
            Sound(db, Settle(placed, sid, s.(runsStarted := s.runsStarted + 1, lastRunId := Some(newId)), due,
                             Admitted(newId)),
                  env.cfg, env.now)
  {
    hide Inv, Advances, C.NextDue, InvButSchedules, CreateRun, TouchWorkspace;
    var s := NextOf(db, env, sid);
    var placed := CreateRun(db, env, ScheduledInput(s), newId, Some((sid, s))).0;
    AdmittedScheduled(db, env, ScheduledInput(s), newId, sid, s);
    var touched := TouchWorkspace(db, s.workspaceId, [], false).value;
    var b := Settle(placed, sid, s.(runsStarted := s.runsStarted + 1, lastRunId := Some(newId)), due, Admitted(newId));
    SettleKeepsInv(touched, placed, b, sid, due, Admitted(newId), env.cfg, env.now);
    Then(db, touched, b, env.cfg, env.now);
  }

  lemma AttemptKeepsInv(db: Db, env: Env, sid: Id, due: int, newId: Id)
    requires Inv(db, env.cfg, env.now) && DueNow(db, env, sid, due)
    ensures Sound(db, Attempt(db, env, sid, due, newId), env.cfg, env.now)
  {
    hide Inv, Advances, C.NextDue, CreateRun, Settle;
    var s := NextOf(db, env, sid);
    if env.now - due >= C.MINUTE {
      MissedKeepsInv(db, env, sid, due);
    } else if CreateRun(db, env, ScheduledInput(s), newId, Some((sid, s))).1.Fail? {
      RefusedAttemptKeepsInv(db, env, sid, due, newId);
    } else {
      AdmittedAttemptKeepsInv(db, env, sid, due, newId);
    }
  }

  lemma EndedKeepsInv(db: Db, env: Env, sid: Id)
    requires Inv(db, env.cfg, env.now) && sid in db.schedules && db.schedules[sid].state.Enabled?
    requires Exhausted(db.schedules[sid], env.now)
    ensures Sound(db, db.(schedules := db.schedules[sid := db.schedules[sid].(state := Ended, nextRunAt := None)]),
                  env.cfg, env.now)
  {
    hide Inv, Advances;
    OneScheduleKeepsInv(db, sid, db.schedules[sid].(state := Ended, nextRunAt := None), env.cfg, env.now);
  }

  lemma TickOneKeepsInv(db: Db, env: Env, sid: Id, newId: Id)
    requires Inv(db, env.cfg, env.now)
    ensures Sound(db, TickOne(db, env, sid, newId), env.cfg, env.now)
  {
    hide Inv, Advances, Attempt;
    Same(db, env.cfg, env.now);
    if sid in db.schedules && !db.schedules[sid].deleted && db.schedules[sid].state.Enabled? {
      var s := db.schedules[sid];
      if s.endAt <= env.now || s.runsStarted >= s.maxRuns {
        EndedKeepsInv(db, env, sid);
      } else if s.nextRunAt.Some? && s.nextRunAt.value <= env.now {
        AttemptKeepsInv(db, env, sid, s.nextRunAt.value, newId);
      }
    }
  }

  lemma {:induction false} TickKeepsInv(db: Db, env: Env, rows: seq<Id>, newIds: seq<Id>)
    requires Inv(db, env.cfg, env.now) && |newIds| == |rows|
    ensures Sound(db, Tick(db, env, rows, newIds), env.cfg, env.now)
    decreases |rows|
  {
    hide Inv, Advances, TickOne;
    Same(db, env.cfg, env.now);
    if rows != [] {
      TickOneKeepsInv(db, env, rows[0], newIds[0]);
      var next := TickOne(db, env, rows[0], newIds[0]);
      TickKeepsInv(next, env, rows[1..], newIds[1..]);
      Then(db, next, Tick(db, env, rows, newIds), env.cfg, env.now);
    }
  }
}
