/** Every step that only moves runs keeps the joint invariant: events, state changes, bulk stops,
    pauses, dispatch and recovery. */
module RunSteps {
  import opened Wrappers
  import opened Engine
  import opened Invariant
  import opened Frames
  import CL = CronLaws

  /** What every transaction must show. */
  ghost predicate Sound(a: Db, b: Db, cfg: Config, clock: int) {
    Inv(b, cfg, clock) && Advances(a, b, clock)
  }

  lemma Then(a: Db, b: Db, c: Db, cfg: Config, clock: int)
    requires Sound(a, b, cfg, clock) && Sound(b, c, cfg, clock)
    ensures Sound(a, c, cfg, clock)
  {
    hide Inv, Advances;
    AdvancesTransitive(a, b, c, clock, clock);
  }

  lemma Same(a: Db, cfg: Config, clock: int)
    requires Inv(a, cfg, clock)
    ensures Sound(a, a, cfg, clock)
  {
    hide Inv;
  }

  /** The log and state of a single run. */
  lemma LogOf(a: Db, rid: Id, cfg: Config, clock: int)
    requires Inv(a, cfg, clock) && rid in a.runs
    ensures a.events.Keys == a.runs.Keys && rid in a.events && LogInv(a.runs[rid], a.events[rid])
  {
    hide RowsOf, ExclusiveInv, LiveInv, HistoryInv, ChainInv, ProposalsInv, RequestsInv, RefreshesInv, SchedulesInv;
  }

  lemma Appended(run: Run, log: seq<Event>, next: Run, kind: EventKind)
    requires LogInv(run, log) && RunAdvances(run, next) && next.lastSeq == run.lastSeq + 1
    requires next.state == (if kind.StateChanged? then kind.state else run.state)
    ensures var more := log + [Event(next.lastSeq, kind)];
            && RunStep(run, log, next, more)
            && Updates(more) == Updates(log) + (if kind.InterfaceUpdated? then [kind] else [])
  {
    UpdatesAppend(log, Event(next.lastSeq, kind));
    LastStateAppend(log, Event(next.lastSeq, kind));
  }

  ghost predicate Keeping(a: Run, b: Run) {
    Working(a.state) || (a.schedule.None? && a.state.Succeeded?) ==>
      Working(b.state) || (b.schedule.None? && b.state.Succeeded?)
  }

  lemma KeepingProposals(a: Db, b: Db, rid: Id)
    requires rid in a.runs && rid in b.runs && b.runs == a.runs[rid := b.runs[rid]] && b.schedules == a.schedules
    requires RunAdvances(a.runs[rid], b.runs[rid]) && Keeping(a.runs[rid], b.runs[rid])
    requires ProposalsInv(a.proposals, a.runs, a.schedules)
    ensures ProposalsInv(a.proposals, b.runs, b.schedules)
  {
    forall p | p in a.proposals ensures ProposalInv(a.proposals[p], b.runs, b.schedules) {
      assert ProposalInv(a.proposals[p], a.runs, a.schedules);
    }
  }

  ghost predicate OnlyRun(a: Db, b: Db, rid: Id) {
    && rid in a.runs && rid in b.runs && rid in a.events && rid in b.events
    && b == a.(runs := a.runs[rid := b.runs[rid]], events := a.events[rid := b.events[rid]], proposals := b.proposals)
  }

  lemma OneRunSteps(a: Db, b: Db, rid: Id)
    requires LogsInv(a.runs, a.events) && OnlyRun(a, b, rid)
    requires RunStep(a.runs[rid], a.events[rid], b.runs[rid], b.events[rid])
    ensures OnlyRuns(a, b) && RunsStep(a, b)
    ensures Quiet(a.runs[rid], a.events[rid], b.runs[rid], b.events[rid]) ==> AllQuiet(a, b)
  {
    hide LogInv;
  }

  /** One run moves on quietly; its pending proposals stay its own or are gone. */
  lemma OneRunKeepsInv(a: Db, b: Db, rid: Id, cfg: Config, clock: int)
    requires Inv(a, cfg, clock) && OnlyRun(a, b, rid)
    requires RunStep(a.runs[rid], a.events[rid], b.runs[rid], b.events[rid])
    requires Quiet(a.runs[rid], a.events[rid], b.runs[rid], b.events[rid])
    requires ProposalsAdvance(a.proposals, b.proposals) && ProposalsInv(b.proposals, b.runs, b.schedules)
    ensures Sound(a, b, cfg, clock)
  {
    hide RowsOf, LogsInv, ExclusiveInv, LiveInv, HistoryInv, ChainInv, ProposalsInv, RequestsInv, RefreshesInv,
        SchedulesInv;
    hide RunStep, Quiet, ProposalsAdvance, RunsStep, AllQuiet;
    OneRunSteps(a, b, rid);
    QuietRunsKeepInv(a, b, cfg, clock);
  }

  /** A run that stays at work (or stays over) records something. */
  lemma RecordKeepsInv(a: Db, b: Db, rid: Id, cfg: Config, clock: int)
    requires Inv(a, cfg, clock) && OnlyRun(a, b, rid) && b.proposals == a.proposals
    requires RunStep(a.runs[rid], a.events[rid], b.runs[rid], b.events[rid])
    requires Quiet(a.runs[rid], a.events[rid], b.runs[rid], b.events[rid]) && Keeping(a.runs[rid], b.runs[rid])
    ensures Sound(a, b, cfg, clock)
  {
    hide RowsOf, LogsInv, ExclusiveInv, LiveInv, HistoryInv, ChainInv, ProposalsInv, RequestsInv, RefreshesInv,
        SchedulesInv;
    hide Quiet, Keeping, RunAdvances, LogInv;
    KeepingProposals(a, b, rid);
    OneRunKeepsInv(a, b, rid, cfg, clock);
  }

  lemma EmitKeepsInv(db: Db, rid: Id, kind: EventKind, cfg: Config, clock: int)
    requires Inv(db, cfg, clock) && rid in db.runs
    requires !kind.StateChanged? && (kind.InterfaceUpdated? ==> db.runs[rid].schedule.None?)
    ensures Sound(db, Emit(db, rid, kind), cfg, clock)
  {
    hide RowsOf, LogsInv, ExclusiveInv, LiveInv, HistoryInv, ChainInv, ProposalsInv, RequestsInv, RefreshesInv,
        SchedulesInv;
    LogOf(db, rid, cfg, clock);
    var b := Emit(db, rid, kind);
    Appended(db.runs[rid], db.events[rid], b.runs[rid], kind);
    RecordKeepsInv(db, b, rid, cfg, clock);
  }

  /** Moves between states that neither end the run successfully nor drop its work. */
  lemma MoveKeepsInv(db: Db, rid: Id, state: RunState, reason: Option<Reason>, cfg: Config, clock: int)
    requires Inv(db, cfg, clock) && rid in db.runs && !Terminal(db.runs[rid].state)
    requires !state.Succeeded? && !state.Queued?
    requires !Live(db.runs[rid].state) ==> !Live(state)
    requires Working(db.runs[rid].state) ==> Working(state)
    ensures Sound(db, Move(db, rid, state, reason), cfg, clock)
  {
    hide RowsOf, LogsInv, ExclusiveInv, LiveInv, HistoryInv, ChainInv, ProposalsInv, RequestsInv, RefreshesInv,
        SchedulesInv;
    LogOf(db, rid, cfg, clock);
    var b := Move(db, rid, state, reason);
    Appended(db.runs[rid], db.events[rid], b.runs[rid], StateChanged(state, reason));
    RecordKeepsInv(db, b, rid, cfg, clock);
  }

  /** Counters move without an event. */
  lemma CountKeepsInv(db: Db, rid: Id, run: Run, cfg: Config, clock: int)
    requires Inv(db, cfg, clock) && rid in db.runs
    requires run == db.runs[rid].(toolCalls := run.toolCalls, modelRequests := run.modelRequests)
    requires db.runs[rid].toolCalls <= run.toolCalls && db.runs[rid].modelRequests <= run.modelRequests
             && WithinBudget(run)
    ensures Sound(db, PutRun(db, rid, run), cfg, clock)
  {
    hide RowsOf, LogsInv, ExclusiveInv, LiveInv, HistoryInv, ChainInv, ProposalsInv, RequestsInv, RefreshesInv,
        SchedulesInv;
    LogOf(db, rid, cfg, clock);
    var b := PutRun(db, rid, run);
    assert b.events == b.events[rid := b.events[rid]];
    RecordKeepsInv(db, b, rid, cfg, clock);
  }

  // ---------------------------------------------------------------- bulk stops

  lemma SweptRunSteps(run: Run, log: seq<Event>, sweep: Sweep, reason: Reason)
    requires LogInv(run, log)
    ensures RunStep(run, log, SweptRun(run, sweep, reason), SweptLog(log, run, sweep, reason))
    ensures Quiet(run, log, SweptRun(run, sweep, reason), SweptLog(log, run, sweep, reason))
  {
    match Target(sweep, run.state) {
      case None =>
      case Some(s) => Appended(run, log, SweptRun(run, sweep, reason), StateChanged(s, Some(reason)));
    }
  }

  lemma SweepAt(db: Db, victims: set<Id>, sweep: Sweep, reason: Reason, r: Id)
    requires r in db.runs && r in db.events && LogInv(db.runs[r], db.events[r])
    ensures var b := SweepRuns(db, victims, sweep, reason);
            && r in b.runs && r in b.events
            && RunStep(db.runs[r], db.events[r], b.runs[r], b.events[r])
            && Quiet(db.runs[r], db.events[r], b.runs[r], b.events[r])
  {
    SweptRunSteps(db.runs[r], db.events[r], sweep, reason);
    hide RunStep, Quiet, SweptRun, SweptLog;
    if r !in victims {
      RunStays(db.runs[r], db.events[r]);
    }
  }

  lemma RunStays(run: Run, log: seq<Event>)
    requires LogInv(run, log)
    ensures RunStep(run, log, run, log) && Quiet(run, log, run, log)
  {}

  lemma SweepFrame(db: Db, victims: set<Id>, sweep: Sweep, reason: Reason)
    ensures var b := SweepRuns(db, victims, sweep, reason);
            OnlyRuns(db, b) && b.runs.Keys == db.runs.Keys && b.events.Keys == db.events.Keys
    ensures SweepRuns(db, victims, sweep, reason).proposals == DropProposals(db, victims).proposals
  {
    hide SweptRun, SweptLog, Dropped;
  }

  lemma SweepSteps(db: Db, victims: set<Id>, sweep: Sweep, reason: Reason)
    requires LogsInv(db.runs, db.events)
    ensures var b := SweepRuns(db, victims, sweep, reason);
            OnlyRuns(db, b) && RunsStep(db, b) && AllQuiet(db, b)
  {
    hide LogInv, RunStep, Quiet, SweepRuns;
    SweepFrame(db, victims, sweep, reason);
    var b := SweepRuns(db, victims, sweep, reason);
    forall r | r in db.runs
      ensures RunStep(db.runs[r], db.events[r], b.runs[r], b.events[r])
              && Quiet(db.runs[r], db.events[r], b.runs[r], b.events[r])
    {
      SweepAt(db, victims, sweep, reason, r);
    }
  }

  lemma DropAdvances(db: Db, sources: set<Id>)
    ensures ProposalsAdvance(db.proposals, DropProposals(db, sources).proposals)
  {}

  lemma SweepOthers(db: Db, victims: set<Id>, sweep: Sweep, reason: Reason, r: Id)
    requires r in db.runs && r !in victims
    ensures var b := SweepRuns(db, victims, sweep, reason); r in b.runs && b.runs[r] == db.runs[r]
  {}

  /** Pending proposals of the swept runs are dropped; every other run is as it was. */
  lemma SweepProposals(db: Db, victims: set<Id>, sweep: Sweep, reason: Reason)
    requires ProposalsInv(db.proposals, db.runs, db.schedules)
    ensures var b := SweepRuns(db, victims, sweep, reason);
            ProposalsAdvance(db.proposals, b.proposals) && ProposalsInv(b.proposals, b.runs, b.schedules)
  {
    var b := SweepRuns(db, victims, sweep, reason);
    SweepFrame(db, victims, sweep, reason);
    DropAdvances(db, victims);
    hide SweepRuns, ProposalsAdvance;
    forall p | p in b.proposals ensures ProposalInv(b.proposals[p], b.runs, b.schedules) {
      assert ProposalInv(db.proposals[p], db.runs, db.schedules);
      assert b.proposals[p] == Dropped(db.proposals[p], victims);
      var source := db.proposals[p].source;
      if source.Some? && source.value in db.runs && source.value !in victims {
        SweepOthers(db, victims, sweep, reason, source.value);
      }
    }
  }

  lemma SweepKeepsInv(db: Db, victims: set<Id>, sweep: Sweep, reason: Reason, cfg: Config, clock: int)
    requires Inv(db, cfg, clock)
    ensures Sound(db, SweepRuns(db, victims, sweep, reason), cfg, clock)
  {
    hide RowsOf, LogsInv, ExclusiveInv, LiveInv, HistoryInv, ChainInv, ProposalsInv, RequestsInv, RefreshesInv,
        SchedulesInv;
    hide OnlyRuns, RunsStep, AllQuiet, ProposalsAdvance, SweepRuns;
    SweepSteps(db, victims, sweep, reason);
    SweepProposals(db, victims, sweep, reason);
    QuietRunsKeepInv(db, SweepRuns(db, victims, sweep, reason), cfg, clock);
  }

  lemma PausedKeepsInv(db: Db, sids: set<Id>, reason: Reason, cfg: Config, clock: int)
    requires Inv(db, cfg, clock)
    ensures Sound(db, PausedOnly(db, sids, reason), cfg, clock)
  {
    var b := PausedOnly(db, sids, reason);
    hide RowsOf, LogsInv, ExclusiveInv, HistoryInv, ChainInv, ProposalsInv, RequestsInv, RefreshesInv, LiveInv,
        SchedulesInv;
    PausedSchedules(db, sids, reason, cfg, clock);
    PausedLive(db, sids, reason, cfg);
    hide DueInv, SchedulesAdvance;
    SchedulesKeepInv(db, b, cfg, clock);
  }

  lemma PausedSchedules(db: Db, sids: set<Id>, reason: Reason, cfg: Config, clock: int)
    requires SchedulesInv(db, cfg, clock)
    ensures var b := PausedOnly(db, sids, reason);
            && b == db.(schedules := b.schedules) && b.schedules.Keys == db.schedules.Keys
            && SchedulesAdvance(db.schedules, b.schedules, clock)
            && forall s | s in b.schedules ::
                 && b.schedules[s].runsStarted == db.schedules[s].runsStarted
                 && DueInv(cfg, b.schedules[s], s, b.occurrences)
                 && (b.schedules[s].state.Ended? ==> Exhausted(b.schedules[s], clock))
  {
    var b := PausedOnly(db, sids, reason);
    hide CountInv, CL.FromText;
    forall s | s in b.schedules
      ensures ScheduleAdvances(db.schedules[s], b.schedules[s], clock)
      ensures b.schedules[s].runsStarted == db.schedules[s].runsStarted && DueInv(cfg, b.schedules[s], s, b.occurrences)
      ensures b.schedules[s].state.Ended? ==> Exhausted(b.schedules[s], clock)
    {
      assert ScheduleInv(cfg, db.schedules[s], s, db, clock);
    }
  }

  function PausedOnly(db: Db, sids: set<Id>, reason: Reason): Db {
    db.(schedules := map s | s in db.schedules ::
        if s in sids then PausedSchedule(db.schedules[s], reason) else db.schedules[s])
  }

  lemma PausedLive(db: Db, sids: set<Id>, reason: Reason, cfg: Config)
    requires LiveInv(db, cfg)
    ensures LiveInv(PausedOnly(db, sids, reason), cfg)
  {
    var b := PausedOnly(db, sids, reason);
    forall r | r in b.runs && Live(b.runs[r].state) ensures RunLive(b, cfg, b.runs[r]) {
      assert RunLive(db, cfg, db.runs[r]);
    }
    forall s | s in b.schedules && b.schedules[s].state.Enabled? ensures ScheduleLive(b, cfg, b.schedules[s]) {
      assert ScheduleLive(db, cfg, db.schedules[s]);
    }
  }

  lemma PauseKeepsInv(db: Db, sids: set<Id>, reason: Reason, cfg: Config, clock: int)
    requires Inv(db, cfg, clock)
    ensures Sound(db, PauseSchedules(db, sids, reason), cfg, clock)
  {
    hide Inv, Advances, SweepRuns;
    PausedKeepsInv(db, sids, reason, cfg, clock);
    var b := PausedOnly(db, sids, reason);
    SweepKeepsInv(b, RunsOf(db, sids), Stop, reason, cfg, clock);
    Then(db, b, PauseSchedules(db, sids, reason), cfg, clock);
  }

  // ---------------------------------------------------------------- dispatch, cancelling, recovery

  lemma {:induction false} StartKeepsInv(db: Db, env: Env, rows: seq<Id>)
    requires Inv(db, env.cfg, env.now)
    ensures Sound(db, StartFrom(db, env, rows).0, env.cfg, env.now)
    decreases |rows|
  {
    hide Inv, Advances, Fence, Move;
    if rows == [] {
      Same(db, env.cfg, env.now);
    } else if rows[0] !in db.runs || !db.runs[rows[0]].state.Queued? {
      StartKeepsInv(db, env, rows[1..]);
    } else {
      match Fence(db, env, db.runs[rows[0]]) {
        case Fail(code) =>
          MoveKeepsInv(db, rows[0], Blocked, Some(Fault(code)), env.cfg, env.now);
          var next := Move(db, rows[0], Blocked, Some(Fault(code)));
          StartKeepsInv(next, env, rows[1..]);
          Then(db, next, StartFrom(next, env, rows[1..]).0, env.cfg, env.now);
        case Pass => MoveKeepsInv(db, rows[0], Running, None, env.cfg, env.now);
      }
    }
  }

  lemma ReceiptKeepsInv(db: Db, rid: Id, cfg: Config, clock: int)
    requires Inv(db, cfg, clock) && rid !in db.runs
    ensures Sound(db, db.(cancellations := db.cancellations + {rid}), cfg, clock)
  {
    hide RowsOf, LogsInv, ExclusiveInv, LiveInv, HistoryInv, ChainInv, ProposalsInv, RequestsInv, RefreshesInv,
        SchedulesInv;
    var b := db.(cancellations := db.cancellations + {rid});
    LiveElsewhere(db, b, cfg);
    SchedulesElsewhere(db, b, cfg, clock);
    RefreshesElsewhere(db, b);
  }

  lemma CancelKeepsInv(db: Db, rid: Id, cfg: Config, clock: int)
    requires Inv(db, cfg, clock)
    ensures Sound(db, CancelRun(db, rid), cfg, clock)
  {
    hide Inv, Advances, SweepRuns;
    if rid !in db.runs {
      ReceiptKeepsInv(db, rid, cfg, clock);
    } else if Terminal(db.runs[rid].state) {
      Same(db, cfg, clock);
    } else {
      SweepKeepsInv(db, {rid}, Stop, OperatorCancelled, cfg, clock);
    }
  }

  lemma RequestsKept(db: Db, tools: map<Id, ToolRequest>, cfg: Config, clock: int)
    requires Inv(db, cfg, clock) && tools.Keys == db.tools.Keys
    requires forall t | t in tools :: tools[t].runId == db.tools[t].runId
    ensures Sound(db, db.(tools := tools), cfg, clock)
  {
    assert RequestsInv(db.tools, db.runs);
    assert RequestsInv(tools, db.runs);
    hide Inv, Advances;
    RequestsKeepInv(db, db.(tools := tools), cfg, clock);
  }

  lemma RecoverKeepsInv(db: Db, cfg: Config, clock: int)
    requires Inv(db, cfg, clock)
    ensures Sound(db, Recover(db), cfg, clock)
  {
    hide Inv, Advances, SweepRuns;
    SweepKeepsInv(db, Unfinished(db), Interrupt, SupervisorRestarted, cfg, clock);
    var swept := SweepRuns(db, Unfinished(db), Interrupt, SupervisorRestarted);
    SweepFrame(db, Unfinished(db), Interrupt, SupervisorRestarted);
    RequestsKept(swept, Recover(db).tools, cfg, clock);
    Then(db, swept, Recover(db), cfg, clock);
  }
}
