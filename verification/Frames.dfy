/** Frame lemmas: when a transaction writes one table, what that table must still satisfy for the
    joint invariant to hold, and that such a write is an advance. */
module Frames {
  import opened Wrappers
  import opened Engine
  import opened Invariant
  import C = Cron
  import CL = CronLaws

  lemma {:induction false} CardSubset<T>(a: set<T>, b: set<T>)
    requires a <= b
    ensures |a| <= |b|
    decreases a
  {
    if a != {} {
      var x :| x in a;
      CardSubset(a - {x}, b - {x});
    }
  }

  lemma UpdatesAppend(log: seq<Event>, e: Event)
    ensures Updates(log + [e]) == Updates(log) + (if e.kind.InterfaceUpdated? then [e.kind] else [])
  {
    assert (log + [e])[..|log|] == log;
  }

  lemma LastStateAppend(log: seq<Event>, e: Event)
    ensures LastState(log + [e]) == (if e.kind.StateChanged? then Some(e.kind.state) else LastState(log))
  {
    assert (log + [e])[..|log|] == log;
  }

  // ---------------------------------------------------------------- runs

  /** A run that moves on, its log growing with it. */
  ghost predicate RunStep(a: Run, log: seq<Event>, b: Run, more: seq<Event>) {
    RunAdvances(a, b) && LogInv(b, more) && log <= more
  }

  /** Nothing here bears on what a scheduled run has published. */
  ghost predicate Quiet(a: Run, log: seq<Event>, b: Run, more: seq<Event>) {
    b.schedule.Some? ==> (b.state.Succeeded? <==> a.state.Succeeded?) && Updates(more) == Updates(log)
  }

  ghost predicate RunsStep(a: Db, b: Db) {
    && b.runs.Keys == a.runs.Keys && b.events.Keys == a.events.Keys
    && forall r | r in a.runs && r in a.events :: RunStep(a.runs[r], a.events[r], b.runs[r], b.events[r])
  }

  ghost predicate AllQuiet(a: Db, b: Db) {
    forall r | r in a.runs && r in a.events && r in b.runs && r in b.events ::
      Quiet(a.runs[r], a.events[r], b.runs[r], b.events[r])
  }

  ghost predicate OnlyRuns(a: Db, b: Db) { b == a.(runs := b.runs, events := b.events, proposals := b.proposals) }

  lemma RunsKeepInv(a: Db, b: Db, cfg: Config, clock: int)
    requires Inv(a, cfg, clock) && OnlyRuns(a, b) && RunsStep(a, b) && RefreshesInv(b)
    requires ProposalsAdvance(a.proposals, b.proposals) && ProposalsInv(b.proposals, b.runs, b.schedules)
    ensures Inv(b, cfg, clock) && Advances(a, b, clock)
  {
    hide RowsOf, LogsInv, ExclusiveInv, LiveInv, HistoryInv, ChainInv, ProposalsInv, RequestsInv, RefreshesInv,
        SchedulesInv;
    hide RunsAdvance, LogsAdvance, ProposalsAdvance;
    assert a.events.Keys == a.runs.Keys by { LogKeys(a); }
    assert b.runs.Keys == a.runs.Keys;
    RunsKeepLogs(a, b, cfg);
    RunsKeepExclusive(a, b);
    RunsKeepLive(a, b, cfg);
    RunsKeepSchedules(a, b, cfg, clock);
  }

  lemma QuietRunsKeepInv(a: Db, b: Db, cfg: Config, clock: int)
    requires Inv(a, cfg, clock) && OnlyRuns(a, b) && RunsStep(a, b) && AllQuiet(a, b)
    requires ProposalsAdvance(a.proposals, b.proposals) && ProposalsInv(b.proposals, b.runs, b.schedules)
    ensures Inv(b, cfg, clock) && Advances(a, b, clock)
  {
    hide RowsOf, LogsInv, ExclusiveInv, LiveInv, HistoryInv, ChainInv, ProposalsInv, RequestsInv, SchedulesInv;
    hide ProposalsAdvance, RunAdvances, LogInv;
    assert a.events.Keys == a.runs.Keys by { LogKeys(a); }
    forall r | r in b.runs && r in b.events ensures RefreshInv(b.runs[r], b.events[r], b) {
      assert RefreshInv(a.runs[r], a.events[r], a) && RunStep(a.runs[r], a.events[r], b.runs[r], b.events[r]);
      QuietKeepsRefresh(a, b, r);
    }
    RunsKeepInv(a, b, cfg, clock);
  }

  lemma QuietKeepsRefresh(a: Db, b: Db, r: Id)
    requires r in a.runs && r in a.events && r in b.runs && r in b.events && OnlyRuns(a, b)
    requires RunAdvances(a.runs[r], b.runs[r]) && Quiet(a.runs[r], a.events[r], b.runs[r], b.events[r])
    requires RefreshInv(a.runs[r], a.events[r], a)
    ensures RefreshInv(b.runs[r], b.events[r], b)
  {}

  lemma LogKeys(a: Db)
    requires LogsInv(a.runs, a.events)
    ensures a.events.Keys == a.runs.Keys
  {}

  lemma RunKeeps(a: Db, b: Db, r: Id)
    requires r in a.runs && r in a.events && r in b.runs && r in b.events && OnlyRuns(a, b)
    requires RunStep(a.runs[r], a.events[r], b.runs[r], b.events[r])
    ensures LogInv(b.runs[r], b.events[r]) && RunAdvances(a.runs[r], b.runs[r]) && a.events[r] <= b.events[r]
    ensures CapturedInv(a.workspaces, a.runs[r]) ==> CapturedInv(b.workspaces, b.runs[r])
  {
    hide LogInv;
  }

  lemma RunsKeepEach(a: Db, b: Db)
    requires RunsStep(a, b) && a.events.Keys == a.runs.Keys && OnlyRuns(a, b)
    ensures forall r | r in b.runs ::
              && LogInv(b.runs[r], b.events[r]) && RunAdvances(a.runs[r], b.runs[r]) && a.events[r] <= b.events[r]
              && (CapturedInv(a.workspaces, a.runs[r]) ==> CapturedInv(b.workspaces, b.runs[r]))
  {
    hide LogInv, RunStep, RunAdvances, CapturedInv;
    forall r | r in b.runs
      ensures LogInv(b.runs[r], b.events[r]) && RunAdvances(a.runs[r], b.runs[r]) && a.events[r] <= b.events[r]
      ensures CapturedInv(a.workspaces, a.runs[r]) ==> CapturedInv(b.workspaces, b.runs[r])
    {
      RunKeeps(a, b, r);
    }
  }

  lemma RunsKeepLogs(a: Db, b: Db, cfg: Config)
    requires LogsInv(a.runs, a.events) && HistoryInv(cfg, a.workspaces, a.runs) && RequestsInv(a.tools, a.runs)
    requires OnlyRuns(a, b) && RunsStep(a, b)
    ensures LogsInv(b.runs, b.events) && HistoryInv(cfg, b.workspaces, b.runs) && RequestsInv(b.tools, b.runs)
    ensures RunsAdvance(a.runs, b.runs) && LogsAdvance(a.events, b.events)
  {
    hide LogInv, RunStep, CapturedInv, WorkspaceInv;
    RunsKeepEach(a, b);
    forall t | t in b.tools ensures !b.runs[b.tools[t].runId].state.Queued? {
      assert RunAdvances(a.runs[b.tools[t].runId], b.runs[b.tools[t].runId]);
    }
  }

  lemma RunsKeepExclusive(a: Db, b: Db)
    requires ExclusiveInv(a.runs) && b.runs.Keys == a.runs.Keys && RunsAdvance(a.runs, b.runs)
    ensures ExclusiveInv(b.runs) && |Active(b.runs)| <= |Active(a.runs)|
  {
    forall r | r in b.runs ensures RunAdvances(a.runs[r], b.runs[r]) {}
    CardSubset(Active(b.runs), Active(a.runs));
    forall r, q | r in b.runs && q in b.runs && r != q && !Terminal(b.runs[r].state) && !Terminal(b.runs[q].state)
      ensures Apart(b.runs[r], b.runs[q])
    {
      assert Apart(a.runs[r], a.runs[q]);
    }
  }

  lemma RunsKeepLive(a: Db, b: Db, cfg: Config)
    requires LiveInv(a, cfg) && b.runs.Keys == a.runs.Keys && RunsAdvance(a.runs, b.runs)
    requires OnlyRuns(a, b)
    ensures LiveInv(b, cfg)
  {
    forall r | r in b.runs && Live(b.runs[r].state) ensures RunLive(b, cfg, b.runs[r]) {
      assert RunAdvances(a.runs[r], b.runs[r]);
      assert RunLive(a, cfg, a.runs[r]);
    }
    forall s | s in b.schedules && b.schedules[s].state.Enabled? ensures ScheduleLive(b, cfg, b.schedules[s]) {
      assert ScheduleLive(a, cfg, a.schedules[s]);
    }
  }

  lemma RunsKeepCounts(a: Db, b: Db, cfg: Config, clock: int)
    requires SchedulesInv(a, cfg, clock) && b.runs.Keys == a.runs.Keys && RunsAdvance(a.runs, b.runs)
    requires OnlyRuns(a, b)
    ensures forall s | s in b.schedules :: ScheduleInv(cfg, b.schedules[s], s, b, clock)
  {
    hide ScheduleInv, SlotsInv, LinksInv;
    forall r | r in b.runs ensures b.runs[r].schedule == a.runs[r].schedule {
      assert RunAdvances(a.runs[r], b.runs[r]);
    }
    hide RunAdvances, RunsAdvance;
    forall s | s in b.schedules ensures ScheduleInv(cfg, b.schedules[s], s, b, clock) {
      LinksKeepCount(a, b, s, cfg, clock);
    }
  }

  lemma LinksKeepCount(a: Db, b: Db, s: Id, cfg: Config, clock: int)
    requires s in a.schedules && b.schedules == a.schedules && b.occurrences == a.occurrences
    requires ScheduleInv(cfg, a.schedules[s], s, a, clock)
    requires b.runs.Keys == a.runs.Keys && forall r | r in b.runs :: b.runs[r].schedule == a.runs[r].schedule
    ensures ScheduleInv(cfg, b.schedules[s], s, b, clock)
  {
    hide DueInv, CL.FromText;
    assert ScheduledRuns(b.runs, s) == ScheduledRuns(a.runs, s);
  }

  lemma RunsKeepSlots(a: Db, b: Db, cfg: Config, clock: int)
    requires SlotsInv(a, cfg, clock) && b.runs.Keys == a.runs.Keys && RunsAdvance(a.runs, b.runs)
    requires OnlyRuns(a, b)
    ensures SlotsInv(b, cfg, clock)
  {
    hide C.Matches;
    forall k | k in b.occurrences ensures SlotInv(cfg, b.schedules[k.0], k.0, k.1, b.occurrences[k], b.runs) {
      assert SlotInv(cfg, a.schedules[k.0], k.0, k.1, a.occurrences[k], a.runs);
      if b.occurrences[k].Admitted? {
        assert RunAdvances(a.runs[b.occurrences[k].runId], b.runs[b.occurrences[k].runId]);
      }
    }
  }

  lemma RunsKeepSchedules(a: Db, b: Db, cfg: Config, clock: int)
    requires SchedulesInv(a, cfg, clock) && b.runs.Keys == a.runs.Keys && RunsAdvance(a.runs, b.runs)
    requires OnlyRuns(a, b)
    ensures SchedulesInv(b, cfg, clock)
  {
    RunsKeepCounts(a, b, cfg, clock);
    RunsKeepSlots(a, b, cfg, clock);
    hide ScheduleInv, SlotsInv;
    forall r | r in b.runs ensures b.runs[r].schedule == a.runs[r].schedule {
      assert RunAdvances(a.runs[r], b.runs[r]);
    }
  }

  // ---------------------------------------------------------------- one table at a time

  lemma RequestsKeepInv(a: Db, b: Db, cfg: Config, clock: int)
    requires Inv(a, cfg, clock) && b == a.(tools := b.tools, usage := b.usage)
    requires RequestsInv(b.tools, b.runs) && UsageInv(b.usage, cfg.dailyLimit)
    ensures Inv(b, cfg, clock) && Advances(a, b, clock)
  {
    hide RowsOf, LogsInv, ExclusiveInv, LiveInv, HistoryInv, ChainInv, ProposalsInv, RequestsInv, RefreshesInv,
        SchedulesInv;
    LiveElsewhere(a, b, cfg);
    SchedulesElsewhere(a, b, cfg, clock);
    RefreshesElsewhere(a, b);
  }

  lemma ProposalsKeepInv(a: Db, b: Db, cfg: Config, clock: int)
    requires Inv(a, cfg, clock) && b == a.(proposals := b.proposals)
    requires ProposalsAdvance(a.proposals, b.proposals) && ProposalsInv(b.proposals, b.runs, b.schedules)
    ensures Inv(b, cfg, clock) && Advances(a, b, clock)
  {
    hide RowsOf, LogsInv, ExclusiveInv, LiveInv, HistoryInv, ChainInv, ProposalsInv, RequestsInv, RefreshesInv,
        SchedulesInv;
    LiveElsewhere(a, b, cfg);
    SchedulesElsewhere(a, b, cfg, clock);
    RefreshesElsewhere(a, b);
  }

  lemma GrantsKeepInv(a: Db, b: Db, cfg: Config, clock: int)
    requires Inv(a, cfg, clock) && b == a.(grants := b.grants)
    requires GrantsAdvance(a.grants, b.grants) && LiveInv(b, cfg)
    ensures Inv(b, cfg, clock) && Advances(a, b, clock)
  {
    hide RowsOf, LogsInv, ExclusiveInv, LiveInv, HistoryInv, ChainInv, ProposalsInv, RequestsInv, RefreshesInv,
        SchedulesInv;
    SchedulesElsewhere(a, b, cfg, clock);
    RefreshesElsewhere(a, b);
  }

  lemma WorkspacesKeepInv(a: Db, b: Db, cfg: Config, clock: int)
    requires Inv(a, cfg, clock) && b == a.(workspaces := b.workspaces)
    requires WorkspacesAdvance(a.workspaces, b.workspaces) && LiveInv(b, cfg) && HistoryInv(cfg, b.workspaces, b.runs)
    ensures Inv(b, cfg, clock) && Advances(a, b, clock)
  {
    hide RowsOf, LogsInv, ExclusiveInv, LiveInv, HistoryInv, ChainInv, ProposalsInv, RequestsInv, RefreshesInv,
        SchedulesInv;
    SchedulesElsewhere(a, b, cfg, clock);
    RefreshesElsewhere(a, b);
  }

  lemma InterfacesKeepInv(a: Db, b: Db, cfg: Config, clock: int)
    requires Inv(a, cfg, clock) && b == a.(interfaces := b.interfaces, revisions := b.revisions)
    requires InterfacesAdvance(a.interfaces, b.interfaces) && Kept(a.revisions, b.revisions)
    requires ChainInv(b.interfaces, b.revisions) && LiveInv(b, cfg)
    ensures Inv(b, cfg, clock) && Advances(a, b, clock)
  {
    hide RowsOf, LogsInv, ExclusiveInv, LiveInv, HistoryInv, ChainInv, ProposalsInv, RequestsInv, RefreshesInv,
        SchedulesInv;
    SchedulesElsewhere(a, b, cfg, clock);
    RefreshesElsewhere(a, b);
  }

  /** Schedules that change without starting an attempt. */
  lemma SchedulesKeepInv(a: Db, b: Db, cfg: Config, clock: int)
    requires Inv(a, cfg, clock) && b == a.(schedules := b.schedules)
    requires b.schedules.Keys == a.schedules.Keys && SchedulesAdvance(a.schedules, b.schedules, clock)
    requires LiveInv(b, cfg)
    requires forall s | s in b.schedules ::
               && b.schedules[s].runsStarted == a.schedules[s].runsStarted
               && DueInv(cfg, b.schedules[s], s, b.occurrences)
               && (b.schedules[s].state.Ended? ==> Exhausted(b.schedules[s], clock))
    ensures Inv(b, cfg, clock) && Advances(a, b, clock)
  {
    hide RowsOf, LogsInv, ExclusiveInv, LiveInv, HistoryInv, ChainInv, ProposalsInv, RequestsInv, RefreshesInv,
        SchedulesInv;
    hide SchedulesAdvance, DueInv;
    SchedulesKeepSlots(a, b, cfg, clock);
    SchedulesKeepTargets(a, b, clock);
  }

  lemma SchedulesKeepSlots(a: Db, b: Db, cfg: Config, clock: int)
    requires SchedulesInv(a, cfg, clock) && b == a.(schedules := b.schedules)
    requires b.schedules.Keys == a.schedules.Keys && SchedulesAdvance(a.schedules, b.schedules, clock)
    requires forall s | s in b.schedules ::
               && b.schedules[s].runsStarted == a.schedules[s].runsStarted
               && DueInv(cfg, b.schedules[s], s, b.occurrences)
               && (b.schedules[s].state.Ended? ==> Exhausted(b.schedules[s], clock))
    ensures SchedulesInv(b, cfg, clock)
  {
    forall s | s in b.schedules ensures ScheduleInv(cfg, b.schedules[s], s, b, clock) {
      assert ScheduleInv(cfg, a.schedules[s], s, a, clock) && ScheduleAdvances(a.schedules[s], b.schedules[s], clock);
    }
    forall k | k in b.occurrences
      ensures k.0 in b.schedules && k.1 <= clock && SlotInv(cfg, b.schedules[k.0], k.0, k.1, b.occurrences[k], b.runs)
    {
      assert SlotInv(cfg, a.schedules[k.0], k.0, k.1, a.occurrences[k], a.runs);
      assert ScheduleAdvances(a.schedules[k.0], b.schedules[k.0], clock);
    }
  }

  lemma SchedulesKeepTargets(a: Db, b: Db, clock: int)
    requires ProposalsInv(a.proposals, a.runs, a.schedules) && RefreshesInv(a) && b == a.(schedules := b.schedules)
    requires SchedulesAdvance(a.schedules, b.schedules, clock)
    ensures ProposalsInv(b.proposals, b.runs, b.schedules) && RefreshesInv(b)
  {
    forall p | p in b.proposals ensures ProposalInv(b.proposals[p], b.runs, b.schedules) {
      assert ProposalInv(a.proposals[p], a.runs, a.schedules);
      SameTarget(a, b, b.proposals[p], clock);
    }
    forall r | r in b.runs && r in b.events ensures RefreshInv(b.runs[r], b.events[r], b) {
      assert RefreshInv(a.runs[r], a.events[r], a);
      if b.runs[r].schedule.Some? {
        var sid := b.runs[r].schedule.value.scheduleId;
        assert ScheduleAdvances(a.schedules[sid], b.schedules[sid], clock);
      }
    }
  }

  lemma SameTarget(a: Db, b: Db, p: Proposal, clock: int)
    requires SchedulesAdvance(a.schedules, b.schedules, clock) && b.runs == a.runs
    requires ProposalInv(p, a.runs, a.schedules)
    ensures ProposalInv(p, b.runs, b.schedules)
  {
    if p.source.Some? && p.source.value in a.runs && a.runs[p.source.value].schedule.Some? {
      var sid := a.runs[p.source.value].schedule.value.scheduleId;
      if sid in a.schedules { assert ScheduleAdvances(a.schedules[sid], b.schedules[sid], clock); }
    }
  }

  // ---------------------------------------------------------------- tables left alone

  lemma LiveElsewhere(a: Db, b: Db, cfg: Config)
    requires LiveInv(a, cfg) && b.runs == a.runs && b.schedules == a.schedules
    requires b.workspaces == a.workspaces && b.interfaces == a.interfaces && b.grants == a.grants
    ensures LiveInv(b, cfg)
  {
    forall r | r in b.runs && Live(b.runs[r].state) ensures RunLive(b, cfg, b.runs[r]) {
      assert RunLive(a, cfg, a.runs[r]);
    }
    forall s | s in b.schedules && b.schedules[s].state.Enabled? ensures ScheduleLive(b, cfg, b.schedules[s]) {
      assert ScheduleLive(a, cfg, a.schedules[s]);
    }
  }

  lemma SchedulesElsewhere(a: Db, b: Db, cfg: Config, clock: int)
    requires SchedulesInv(a, cfg, clock)
    requires b.runs == a.runs && b.schedules == a.schedules && b.occurrences == a.occurrences
    ensures SchedulesInv(b, cfg, clock)
  {
    forall s | s in b.schedules ensures ScheduleInv(cfg, b.schedules[s], s, b, clock) {
      assert ScheduleInv(cfg, a.schedules[s], s, a, clock);
    }
    assert SlotsInv(b, cfg, clock) by { assert SlotsInv(a, cfg, clock); }
  }

  lemma RefreshesElsewhere(a: Db, b: Db)
    requires RefreshesInv(a) && b.runs == a.runs && b.events == a.events && b.schedules == a.schedules
    requires Kept(a.revisions, b.revisions)
    ensures RefreshesInv(b)
  {
    forall r | r in b.runs && r in b.events ensures RefreshInv(b.runs[r], b.events[r], b) {
      assert RefreshInv(a.runs[r], a.events[r], a);
    }
  }
}
