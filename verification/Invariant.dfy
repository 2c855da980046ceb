/** The joint invariant of the engine's tables, and how the tables may change over time. */
module Invariant {
  import opened Wrappers
  import opened Engine
  import H = History
  import HL = HistoryLaws
  import C = Cron
  import CL = CronLaws

  // ---------------------------------------------------------------- rows and logs

  ghost predicate RowsOf(rows: seq<Id>, keys: set<Id>) {
    && Distinct(rows)
    && (forall i | 0 <= i < |rows| :: rows[i] in keys)
    && (forall k | k in keys :: k in rows)
  }

  /** Exactly the sequence numbers 1..n, in order. */
  ghost predicate Gapless(log: seq<Event>, n: nat) {
    |log| == n && forall i | 0 <= i < |log| :: log[i].seqNo == i + 1
  }

  /** The state the log ends in. */
  function LastState(log: seq<Event>): Option<RunState> {
    if log == [] then None
    else if log[|log| - 1].kind.StateChanged? then Some(log[|log| - 1].kind.state)
    else LastState(log[..|log| - 1])
  }

  /** What a run was given, and has not overspent. */
  predicate WithinBudget(run: Run) {
    && run.toolCalls <= run.input.budgets.maxToolCalls && run.modelRequests <= run.input.budgets.maxIterations
    && run.deadline == run.createdAt + 1000 * run.input.budgets.maxDurationSeconds
  }

  ghost predicate LogInv(run: Run, log: seq<Event>) {
    Gapless(log, run.lastSeq) && LastState(log) == Some(run.state) && WithinBudget(run)
  }

  ghost predicate LogsInv(runs: map<Id, Run>, events: map<Id, seq<Event>>) {
    && events.Keys == runs.Keys
    && forall r | r in runs :: LogInv(runs[r], events[r])
  }

  // ---------------------------------------------------------------- exclusive admission

  ghost predicate Apart(a: Run, b: Run) {
    a.input.workspaceId != b.input.workspaceId && a.connections !! b.connections
  }

  ghost predicate ExclusiveInv(runs: map<Id, Run>) {
    forall r, q | r in runs && q in runs && r != q && !Terminal(runs[r].state) && !Terminal(runs[q].state) ::
      Apart(runs[r], runs[q])
  }

  function Active(runs: map<Id, Run>): set<Id> { set r | r in runs && !Terminal(runs[r].state) }

  // ---------------------------------------------------------------- referential liveness

  ghost predicate WorkspaceLive(workspaces: map<Id, Workspace>, wid: Id) {
    wid in workspaces && !workspaces[wid].deleted
  }

  ghost predicate InterfaceLive(interfaces: map<Id, Interface>, iid: Id) {
    iid in interfaces && !interfaces[iid].deleted
  }

  ghost predicate GrantLive(grants: map<Id, Grant>, cfg: Config, wid: Id, model: Id, ref: GrantRef) {
    ref.id in grants && GrantMatches(grants[ref.id], cfg, wid, model, ref)
  }

  ghost predicate GrantsLive(grants: map<Id, Grant>, cfg: Config, wid: Id, model: Id, refs: seq<GrantRef>) {
    forall i | 0 <= i < |refs| :: GrantLive(grants, cfg, wid, model, refs[i])
  }

  ghost predicate RunLive(db: Db, cfg: Config, run: Run) {
    && WorkspaceLive(db.workspaces, run.input.workspaceId)
    && (forall i | 0 <= i < |run.input.interfaceIds| :: InterfaceLive(db.interfaces, run.input.interfaceIds[i]))
    && GrantsLive(db.grants, cfg, run.input.workspaceId, run.input.modelId, run.input.grantRefs)
    && HoldsConnections(db.grants, run)
  }

  /** The connections a run holds are those of its grants. */
  ghost predicate HoldsConnections(grants: map<Id, Grant>, run: Run) {
    forall i | 0 <= i < |run.input.grantRefs| && run.input.grantRefs[i].id in grants ::
      grants[run.input.grantRefs[i].id].connectionId in run.connections
  }

  ghost predicate ScheduleLive(db: Db, cfg: Config, s: Schedule) {
    && !s.deleted && WorkspaceLive(db.workspaces, s.workspaceId) && InterfaceLive(db.interfaces, s.interfaceId)
    && GrantsLive(db.grants, cfg, s.workspaceId, s.modelId, s.grantRefs)
  }

  ghost predicate LiveInv(db: Db, cfg: Config) {
    && (forall r | r in db.runs && Live(db.runs[r].state) :: RunLive(db, cfg, db.runs[r]))
    && (forall s | s in db.schedules && db.schedules[s].state.Enabled? :: ScheduleLive(db, cfg, db.schedules[s]))
  }

  // ---------------------------------------------------------------- committed histories

  ghost predicate WorkspaceInv(cfg: Config, ws: Workspace) {
    && HL.Stored(cfg.codec, ws.history)
    && (!ws.admitted || ws.deleted ==> ws.history == [])
  }

  ghost predicate CapturedInv(workspaces: map<Id, Workspace>, run: Run) {
    Live(run.state) && run.schedule.None? ==>
      && WorkspaceLive(workspaces, run.input.workspaceId) && workspaces[run.input.workspaceId].admitted
      && run.history == workspaces[run.input.workspaceId].history
  }

  ghost predicate HistoryInv(cfg: Config, workspaces: map<Id, Workspace>, runs: map<Id, Run>) {
    && (forall w | w in workspaces :: WorkspaceInv(cfg, workspaces[w]))
    && (forall r | r in runs :: CapturedInv(workspaces, runs[r]))
  }

  // ---------------------------------------------------------------- interfaces

  ghost predicate ChainInv(interfaces: map<Id, Interface>, revisions: map<(Id, nat), Revision>) {
    && (forall i | i in interfaces :: interfaces[i].revision >= 1)
    && (forall i, n: nat | i in interfaces && 1 <= n <= interfaces[i].revision ::
          (i, n) in revisions && revisions[(i, n)].parent == (if n == 1 then None else Some((n - 1) as nat)))
    && (forall k | k in revisions :: k.0 in interfaces && 1 <= k.1 <= interfaces[k.0].revision)
    && (forall i | i in interfaces ::
          && (i, interfaces[i].revision) in revisions
          && revisions[(i, interfaces[i].revision)].title == interfaces[i].title
          && revisions[(i, interfaces[i].revision)].spec == interfaces[i].spec)
  }

  // ---------------------------------------------------------------- proposals and requests

  /** A pending proposal of a run may still be published: its run is at work, or it was an
      operator's run and succeeded. */
  ghost predicate ProposalInv(p: Proposal, runs: map<Id, Run>, schedules: map<Id, Schedule>) {
    p.state.Pending? && p.source.Some? ==>
      && p.source.value in runs
      && var run := runs[p.source.value];
      && (Working(run.state) || (run.schedule.None? && run.state.Succeeded?))
      && p.workspaceId == run.input.workspaceId
      && (run.schedule.Some? ==>
            && run.schedule.value.scheduleId in schedules
            && p.interfaceId == Some(schedules[run.schedule.value.scheduleId].interfaceId)
            && p.expectedRevision == run.schedule.value.targetRevision)
  }

  ghost predicate ProposalsInv(proposals: map<Id, Proposal>, runs: map<Id, Run>, schedules: map<Id, Schedule>) {
    forall p | p in proposals :: ProposalInv(proposals[p], runs, schedules)
  }

  ghost predicate RequestsInv(tools: map<Id, ToolRequest>, runs: map<Id, Run>) {
    forall t | t in tools :: tools[t].runId in runs && !runs[tools[t].runId].state.Queued?
  }

  // ---------------------------------------------------------------- what scheduled runs published

  function Updates(log: seq<Event>): seq<EventKind> {
    if log == [] then []
    else
      var last := log[|log| - 1].kind;
      Updates(log[..|log| - 1]) + (if last.InterfaceUpdated? then [last] else [])
  }

  /** A scheduled run publishes nothing until it succeeds, and then exactly one revision: the one
      after the target it saw at admission. */
  ghost predicate RefreshInv(run: Run, log: seq<Event>, db: Db) {
    run.schedule.Some? ==>
      && run.schedule.value.scheduleId in db.schedules
      && var iid := db.schedules[run.schedule.value.scheduleId].interfaceId;
      && var next := run.schedule.value.targetRevision + 1;
      && Updates(log) == (if run.state.Succeeded? then [InterfaceUpdated(iid, next)] else [])
      && (run.state.Succeeded? ==> (iid, next) in db.revisions)
  }

  ghost predicate RefreshesInv(db: Db) {
    forall r | r in db.runs && r in db.events :: RefreshInv(db.runs[r], db.events[r], db)
  }

  // ---------------------------------------------------------------- schedules

  function AdmittedSlots(occurrences: map<(Id, int), Occurrence>, sid: Id): set<(Id, int)> {
    set k | k in occurrences && k.0 == sid && occurrences[k].Admitted?
  }

  function ScheduledRuns(runs: map<Id, Run>, sid: Id): set<Id> {
    set r | r in runs && runs[r].schedule.Some? && runs[r].schedule.value.scheduleId == sid
  }

  /** No time or attempt is left; nothing but time passing and attempts made leads here. */
  predicate Exhausted(s: Schedule, clock: int) { s.endAt <= clock || s.runsStarted >= s.maxRuns }

  /** A slot that was admitted: a matching minute within bounds, under a minute old when its run,
      which belongs to this schedule, was created. */
  ghost predicate SlotInv(cfg: Config, s: Schedule, sid: Id, slot: int, o: Occurrence, runs: map<Id, Run>) {
    && CL.OnMinute(slot) && C.Matches(s.cron, cfg.calendar, slot) && slot < s.endAt
    && (o.Admitted? ==>
          && o.runId in runs && runs[o.runId].schedule.Some? && runs[o.runId].schedule.value.scheduleId == sid
          && slot <= runs[o.runId].createdAt < slot + C.MINUTE)
  }

  ghost predicate SlotsInv(db: Db, cfg: Config, clock: int) {
    && (forall k | k in db.occurrences ::
          && k.0 in db.schedules && k.1 <= clock
          && SlotInv(cfg, db.schedules[k.0], k.0, k.1, db.occurrences[k], db.runs))
    && (forall k, l | k in db.occurrences && l in db.occurrences && k != l
                      && db.occurrences[k].Admitted? && db.occurrences[l].Admitted? ::
          db.occurrences[k].runId != db.occurrences[l].runId)
  }

  ghost predicate CountInv(s: Schedule, sid: Id, occurrences: map<(Id, int), Occurrence>, runs: map<Id, Run>) {
    s.runsStarted == |AdmittedSlots(occurrences, sid)| == |ScheduledRuns(runs, sid)| <= s.maxRuns
  }

  /** The runs of a schedule captured versions that it has had. */
  ghost predicate VersionsInv(s: Schedule, sid: Id, runs: map<Id, Run>) {
    forall r | r in ScheduledRuns(runs, sid) :: runs[r].schedule.value.version <= s.version
  }

  /** The next due minute lies beyond every minute already settled. */
  ghost predicate DueInv(cfg: Config, s: Schedule, sid: Id, occurrences: map<(Id, int), Occurrence>) {
    && (s.state.Enabled? && s.nextRunAt.Some? ==>
          && CL.OnMinute(s.nextRunAt.value) && C.Matches(s.cron, cfg.calendar, s.nextRunAt.value)
          && s.nextRunAt.value < s.endAt
          && forall k | k in occurrences && k.0 == sid :: k.1 < s.nextRunAt.value)
  }

  ghost predicate ScheduleInv(cfg: Config, s: Schedule, sid: Id, db: Db, clock: int) {
    && CountInv(s, sid, db.occurrences, db.runs)
    && VersionsInv(s, sid, db.runs)
    && DueInv(cfg, s, sid, db.occurrences)
    && CL.FromText(s.cron)
    && (s.state.Ended? ==> Exhausted(s, clock))
  }

  ghost predicate LinksInv(runs: map<Id, Run>, schedules: map<Id, Schedule>) {
    forall r | r in runs && runs[r].schedule.Some? :: runs[r].schedule.value.scheduleId in schedules
  }

  ghost predicate SchedulesInv(db: Db, cfg: Config, clock: int) {
    && LinksInv(db.runs, db.schedules)
    && (forall s | s in db.schedules :: ScheduleInv(cfg, db.schedules[s], s, db, clock))
    && SlotsInv(db, cfg, clock)
  }

  ghost predicate UsageInv(usage: map<int, nat>, limit: nat) { forall d | d in usage :: usage[d] <= limit }

  // ---------------------------------------------------------------- the joint invariant

  ghost predicate Inv(db: Db, cfg: Config, clock: int) {
    && RowsOf(db.runRows, db.runs.Keys) && RowsOf(db.scheduleRows, db.schedules.Keys)
    && LogsInv(db.runs, db.events)
    && ExclusiveInv(db.runs) && |Active(db.runs)| <= QUEUE_LIMIT && db.runs.Keys !! db.cancellations
    && LiveInv(db, cfg)
    && HistoryInv(cfg, db.workspaces, db.runs)
    && ChainInv(db.interfaces, db.revisions)
    && ProposalsInv(db.proposals, db.runs, db.schedules)
    && RequestsInv(db.tools, db.runs)
    && RefreshesInv(db)
    && UsageInv(db.usage, cfg.dailyLimit)
    && SchedulesInv(db, cfg, clock)
  }

  lemma EmptyIsInvariant(cfg: Config, clock: int)
    ensures Inv(EMPTY, cfg, clock)
  {
    assert Active(EMPTY.runs) == {};
  }

  // ---------------------------------------------------------------- change over time

  /** What a run never changes, and which states it cannot go back to. */
  ghost predicate RunAdvances(a: Run, b: Run) {
    && b.input == a.input && b.schedule == a.schedule && b.createdAt == a.createdAt && b.deadline == a.deadline
    && b.history == a.history && b.connections == a.connections
    && a.lastSeq <= b.lastSeq && a.toolCalls <= b.toolCalls && a.modelRequests <= b.modelRequests
    && (Terminal(a.state) ==> b.state == a.state)
    && (!Live(a.state) ==> !Live(b.state))
    && (b.state.Queued? ==> a.state.Queued?)
    && (WithinBudget(a) ==> WithinBudget(b))
  }

  ghost predicate WorkspaceAdvances(a: Workspace, b: Workspace) {
    && (a.deleted ==> b.deleted) && (a.admitted ==> b.admitted)
    && (!b.deleted ==> a.history <= b.history)
  }

  ghost predicate GrantAdvances(a: Grant, b: Grant) {
    && b == a.(generation := b.generation, revoked := b.revoked)
    && a.generation <= b.generation && (a.revoked ==> b.revoked)
  }

  function Stage(s: ProposalState): nat { match s case Pending => 0 case Published => 1 case Invalidated => 2 }

  ghost predicate ProposalAdvances(a: Proposal, b: Proposal) {
    && b == a.(state := b.state, interfaceId := b.interfaceId)
    && (a.interfaceId.Some? ==> b.interfaceId == a.interfaceId)
    && Stage(a.state) <= Stage(b.state)
  }

  ghost predicate InterfaceAdvances(a: Interface, b: Interface) {
    && a.revision <= b.revision && (a.deleted ==> b == a)
  }

  ghost predicate ScheduleAdvances(a: Schedule, b: Schedule, clock: int) {
    && b == a.(version := b.version, state := b.state, runsStarted := b.runsStarted, nextRunAt := b.nextRunAt,
               lastRunId := b.lastRunId, reason := b.reason, deleted := b.deleted)
    && a.version <= b.version && a.runsStarted <= b.runsStarted && (a.deleted ==> b.deleted)
    && (!a.state.Enabled? && Exhausted(a, clock) ==> !b.state.Enabled?)
  }

  ghost predicate RunsAdvance(a: map<Id, Run>, b: map<Id, Run>) {
    forall r | r in a :: r in b && RunAdvances(a[r], b[r])
  }

  ghost predicate LogsAdvance(a: map<Id, seq<Event>>, b: map<Id, seq<Event>>) {
    forall r | r in a :: r in b && a[r] <= b[r]
  }

  ghost predicate WorkspacesAdvance(a: map<Id, Workspace>, b: map<Id, Workspace>) {
    forall w | w in a :: w in b && WorkspaceAdvances(a[w], b[w])
  }

  ghost predicate GrantsAdvance(a: map<Id, Grant>, b: map<Id, Grant>) {
    forall g | g in a :: g in b && GrantAdvances(a[g], b[g])
  }

  ghost predicate ProposalsAdvance(a: map<Id, Proposal>, b: map<Id, Proposal>) {
    forall p | p in a :: p in b && ProposalAdvances(a[p], b[p])
  }

  ghost predicate InterfacesAdvance(a: map<Id, Interface>, b: map<Id, Interface>) {
    forall i | i in a :: i in b && InterfaceAdvances(a[i], b[i])
  }

  ghost predicate SchedulesAdvance(a: map<Id, Schedule>, b: map<Id, Schedule>, clock: int) {
    forall s | s in a :: s in b && ScheduleAdvances(a[s], b[s], clock)
  }

  /** Rows that are written once. */
  ghost predicate Kept<K(!new), V>(a: map<K, V>, b: map<K, V>) {
    forall k | k in a :: k in b && b[k] == a[k]
  }

  /** `clock` is the time at which the later tables were written. */
  ghost predicate Advances(a: Db, b: Db, clock: int) {
    && RunsAdvance(a.runs, b.runs) && LogsAdvance(a.events, b.events)
    && WorkspacesAdvance(a.workspaces, b.workspaces) && GrantsAdvance(a.grants, b.grants)
    && ProposalsAdvance(a.proposals, b.proposals) && InterfacesAdvance(a.interfaces, b.interfaces)
    && SchedulesAdvance(a.schedules, b.schedules, clock)
    && Kept(a.revisions, b.revisions) && Kept(a.occurrences, b.occurrences)
    && a.cancellations <= b.cancellations
  }

  lemma SchedulesAdvanceTransitive(a: map<Id, Schedule>, b: map<Id, Schedule>, c: map<Id, Schedule>, t1: int, t2: int)
    requires t1 <= t2 && SchedulesAdvance(a, b, t1) && SchedulesAdvance(b, c, t2)
    ensures SchedulesAdvance(a, c, t1)
  {
    forall s | s in a ensures s in c && ScheduleAdvances(a[s], c[s], t1) {
      assert ScheduleAdvances(a[s], b[s], t1) && ScheduleAdvances(b[s], c[s], t2);
    }
  }

  lemma TablesAdvanceTransitive(a: Db, b: Db, c: Db)
    requires RunsAdvance(a.runs, b.runs) && RunsAdvance(b.runs, c.runs)
    requires WorkspacesAdvance(a.workspaces, b.workspaces) && WorkspacesAdvance(b.workspaces, c.workspaces)
    requires GrantsAdvance(a.grants, b.grants) && GrantsAdvance(b.grants, c.grants)
    requires ProposalsAdvance(a.proposals, b.proposals) && ProposalsAdvance(b.proposals, c.proposals)
    ensures RunsAdvance(a.runs, c.runs) && WorkspacesAdvance(a.workspaces, c.workspaces)
    ensures GrantsAdvance(a.grants, c.grants) && ProposalsAdvance(a.proposals, c.proposals)
  {
    forall r | r in a.runs ensures r in c.runs && RunAdvances(a.runs[r], c.runs[r]) {
      assert RunAdvances(a.runs[r], b.runs[r]) && RunAdvances(b.runs[r], c.runs[r]);
    }
    forall w | w in a.workspaces ensures w in c.workspaces && WorkspaceAdvances(a.workspaces[w], c.workspaces[w]) {
      assert WorkspaceAdvances(a.workspaces[w], b.workspaces[w]) && WorkspaceAdvances(b.workspaces[w], c.workspaces[w]);
    }
    forall g | g in a.grants ensures g in c.grants && GrantAdvances(a.grants[g], c.grants[g]) {
      assert GrantAdvances(a.grants[g], b.grants[g]) && GrantAdvances(b.grants[g], c.grants[g]);
    }
    forall p | p in a.proposals ensures p in c.proposals && ProposalAdvances(a.proposals[p], c.proposals[p]) {
      assert ProposalAdvances(a.proposals[p], b.proposals[p]) && ProposalAdvances(b.proposals[p], c.proposals[p]);
    }
  }

  lemma AdvancesTransitive(a: Db, b: Db, c: Db, t1: int, t2: int)
    requires t1 <= t2 && Advances(a, b, t1) && Advances(b, c, t2)
    ensures Advances(a, c, t1)
  {
    TablesAdvanceTransitive(a, b, c);
    SchedulesAdvanceTransitive(a.schedules, b.schedules, c.schedules, t1, t2);
    forall r | r in a.events ensures r in c.events && a.events[r] <= c.events[r] {
      assert a.events[r] <= b.events[r] <= c.events[r];
    }
    forall i | i in a.interfaces ensures i in c.interfaces && InterfaceAdvances(a.interfaces[i], c.interfaces[i]) {
      assert InterfaceAdvances(a.interfaces[i], b.interfaces[i]) && InterfaceAdvances(b.interfaces[i], c.interfaces[i]);
    }
  }

  lemma InvLater(db: Db, cfg: Config, t1: int, t2: int)
    requires t1 <= t2 && Inv(db, cfg, t1)
    ensures Inv(db, cfg, t2)
  {
    hide RowsOf, LogsInv, ExclusiveInv, LiveInv, HistoryInv, ChainInv, ProposalsInv, RequestsInv, RefreshesInv;
    hide LinksInv, SlotInv, CountInv, DueInv, CL.FromText;
    forall s | s in db.schedules ensures ScheduleInv(cfg, db.schedules[s], s, db, t2) {
      assert ScheduleInv(cfg, db.schedules[s], s, db, t1);
    }
    forall k | k in db.occurrences
      ensures k.1 <= t2 && SlotInv(cfg, db.schedules[k.0], k.0, k.1, db.occurrences[k], db.runs)
    {
      assert SlotInv(cfg, db.schedules[k.0], k.0, k.1, db.occurrences[k], db.runs);
    }
  }
}
