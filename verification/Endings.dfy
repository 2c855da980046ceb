/** How runs end: what each way of ending asks for and exactly what it writes, and what a stop, a
    restart and a dispatch do to every row. */
module Endings {
  import opened Wrappers
  import opened Engine
  import opened RunSteps
  import opened Sweeps
  import opened Verdicts
  import opened Writes
  import H = History

  // ---------------------------------------------------------------- stops

  predicate Over(s: RunState) { s == Succeeded || s == Failed || s == Cancelled || s == Interrupted || s == Blocked }

  /** What a stop makes of a run's state: a queued run is over at once, a working one is told to stop. */
  function StopOf(s: RunState): Option<RunState> {
    if Over(s) then None else if s == Queued then Some(Cancelled) else Some(Cancelling)
  }

  /** What a restart makes of it: whatever was at work or being stopped is interrupted. */
  function RestartOf(s: RunState): Option<RunState> {
    if s == Running || s == WaitingForDevice || s == Cancelling then Some(Interrupted) else None
  }

  /** Every victim that `to` moves is moved for `reason`, with one event; every pending proposal of a
      victim is dropped; nothing else changes. */
  ghost predicate MovesExactly(a: Db, b: Db, victims: set<Id>, to: RunState -> Option<RunState>, reason: Reason) {
    && b == a.(runs := b.runs, events := b.events, proposals := b.proposals)
    && RowsMove(a.runs, b.runs, victims, to, reason)
    && LogsMove(a, b.events, victims, to, reason)
    && DropsExactly(a.proposals, b.proposals, victims)
  }

  ghost predicate RowsMove(a: map<Id, Run>, b: map<Id, Run>, victims: set<Id>, to: RunState -> Option<RunState>,
                           reason: Reason)
  {
    && b.Keys == a.Keys
    && forall r | r in a ::
         b[r] == if r in victims && to(a[r].state).Some?
                 then a[r].(state := to(a[r].state).value, reason := Some(reason), lastSeq := a[r].lastSeq + 1)
                 else a[r]
  }

  ghost predicate LogsMove(a: Db, b: map<Id, seq<Event>>, victims: set<Id>, to: RunState -> Option<RunState>,
                           reason: Reason)
  {
    && b.Keys == a.events.Keys
    && forall r | r in a.events ::
         b[r] == if r in victims && r in a.runs && to(a.runs[r].state).Some?
                 then a.events[r] + [Event(a.runs[r].lastSeq + 1,
                                           StateChanged(to(a.runs[r].state).value, Some(reason)))]
                 else a.events[r]
  }

  ghost predicate DropsExactly(a: map<Id, Proposal>, b: map<Id, Proposal>, sources: set<Id>) {
    && b.Keys == a.Keys
    && forall p | p in a ::
         b[p] == if a[p].state == Pending && a[p].source.Some? && a[p].source.value in sources
                 then a[p].(state := Invalidated) else a[p]
  }

  lemma DropIsExact(db: Db, sources: set<Id>)
    ensures DropsExactly(db.proposals, DropProposals(db, sources).proposals, sources)
    ensures DropProposals(db, sources) == db.(proposals := DropProposals(db, sources).proposals)
  {}

  lemma SweptRowsMove(runs: map<Id, Run>, victims: set<Id>, sweep: Sweep, reason: Reason)
    ensures RowsMove(runs, SweptRuns(runs, victims, sweep, reason), victims, AimOf(sweep), reason)
  {
    TargetIs(sweep);
    hide Target, AimOf;
  }

  lemma SweptLogsMove(db: Db, victims: set<Id>, sweep: Sweep, reason: Reason)
    ensures LogsMove(db, SweptLogs(db.events, db.runs, victims, sweep, reason), victims, AimOf(sweep), reason)
  {
    TargetIs(sweep);
    hide Target, AimOf;
  }

  function AimOf(sweep: Sweep): RunState -> Option<RunState> { if sweep.Stop? then StopOf else RestartOf }

  lemma SweepIsExact(db: Db, victims: set<Id>, sweep: Sweep, reason: Reason)
    ensures MovesExactly(db, SweepRuns(db, victims, sweep, reason), victims, AimOf(sweep), reason)
  {
    DropIsExact(db, victims);
    SweptRowsMove(db.runs, victims, sweep, reason);
    SweptLogsMove(db, victims, sweep, reason);
    hide DropProposals, SweptRuns, SweptLogs, RowsMove, LogsMove, DropsExactly, AimOf;
  }

  lemma TargetIs(sweep: Sweep)
    ensures forall s :: Target(sweep, s) == AimOf(sweep)(s)
  {}

  /** Cancelling an unknown id leaves a receipt that bars it; a run that is over stays as it ended. */
  lemma CancelExactly(db: Db, rid: Id)
    ensures var b := CancelRun(db, rid);
            if rid !in db.runs then b == db.(cancellations := db.cancellations + {rid})
            else if Over(db.runs[rid].state) then b == db
            else MovesExactly(db, b, {rid}, StopOf, OperatorCancelled)
  {
    hide SweepRuns, MovesExactly;
    SweepIsExact(db, {rid}, Stop, OperatorCancelled);
  }

  /** The runs that a restart interrupts. */
  ghost function Interrupting(db: Db): set<Id> { set r | r in db.runs && RestartOf(db.runs[r].state).Some? }

  /** After a restart nothing of a tool request is held, and only a completed one stays so. */
  ghost predicate Released(a: map<Id, ToolRequest>, b: map<Id, ToolRequest>) {
    && b.Keys == a.Keys
    && forall t | t in a ::
         b[t] == a[t].(claim := None, result := None,
                       state := if a[t].state == Open || a[t].state == Claimed then Withdrawn else a[t].state)
  }

  lemma RecoverExactly(db: Db)
    ensures var b := Recover(db);
            MovesExactly(db, b.(tools := db.tools), Interrupting(db), RestartOf, SupervisorRestarted)
                && Released(db.tools, b.tools)
  {
    SweepIsExact(db, Unfinished(db), Interrupt, SupervisorRestarted);
    assert Unfinished(db) == Interrupting(db);
    hide SweepRuns, RowsMove, LogsMove, DropsExactly, Unfinished, Interrupting;
  }

  // ---------------------------------------------------------------- pauses

  /** Paused, one version on, with no next minute. */
  function PausedAs(s: Schedule, reason: Reason): Schedule {
    s.(state := Paused, version := s.version + 1, reason := Some(reason), nextRunAt := None)
  }

  ghost function StartedBy(db: Db, sids: set<Id>): set<Id> {
    set r | r in db.runs && db.runs[r].schedule.Some? && db.runs[r].schedule.value.scheduleId in sids
  }

  ghost predicate RowsPause(a: map<Id, Schedule>, b: map<Id, Schedule>, sids: set<Id>, reason: Reason) {
    && b.Keys == a.Keys
    && forall s | s in a :: b[s] == if s in sids then PausedAs(a[s], reason) else a[s]
  }

  /** The schedules of `sids` are paused and the runs they started are stopped; nothing else changes. */
  ghost predicate PausesExactly(a: Db, b: Db, sids: set<Id>, reason: Reason) {
    && RowsPause(a.schedules, b.schedules, sids, reason)
    && MovesExactly(a.(schedules := b.schedules), b, StartedBy(a, sids), StopOf, reason)
  }

  lemma PauseIsExact(db: Db, sids: set<Id>, reason: Reason)
    ensures PausesExactly(db, PauseSchedules(db, sids, reason), sids, reason)
  {
    hide SweepRuns, RowsMove, LogsMove, DropsExactly, PauseSchedules;
    var paused := PausedOnly(db, sids, reason);
    PauseForm(db, sids, reason);
    SweepIsExact(paused, RunsOf(db, sids), Stop, reason);
    assert RunsOf(db, sids) == StartedBy(db, sids);
    assert RowsPause(db.schedules, paused.schedules, sids, reason);
  }
}
