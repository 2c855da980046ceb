/** Bulk stops one run, one schedule or one proposal at a time: what the loops of the store build up
    to is the stop taken at once. */
module Sweeps {
  import opened Wrappers
  import opened Engine
  import opened Invariant
  import opened RunSteps

  lemma SweepNone(db: Db, sweep: Sweep, reason: Reason)
    ensures SweepRuns(db, {}, sweep, reason) == db
  {
    var b := SweepRuns(db, {}, sweep, reason);
    assert b.runs == db.runs;
    assert b.events == db.events;
    assert b.proposals == db.proposals;
  }

  lemma SweptOne(runs: map<Id, Run>, events: map<Id, seq<Event>>, r: Id, sweep: Sweep, reason: Reason)
    requires r in runs && r in events
    ensures SweptRuns(runs, {r}, sweep, reason) == runs[r := SweptRun(runs[r], sweep, reason)]
    ensures SweptLogs(events, runs, {r}, sweep, reason) == events[r := SweptLog(events[r], runs[r], sweep, reason)]
  {
    hide SweptRun, SweptLog;
  }

  /** One run at a time. */
  lemma SweepOne(db: Db, r: Id, sweep: Sweep, reason: Reason)
    requires r in db.runs && r in db.events
    ensures var dropped := DropProposals(db, {r});
            SweepRuns(db, {r}, sweep, reason) ==
              match Target(sweep, db.runs[r].state)
              case None => dropped
              case Some(s) => Move(dropped, r, s, Some(reason))
  {
    SweptOne(db.runs, db.events, r, sweep, reason);
    hide SweptRuns, SweptLogs, Target;
    if Target(sweep, db.runs[r].state).None? {
      assert db.runs[r := db.runs[r]] == db.runs && db.events[r := db.events[r]] == db.events;
    } else {
      var s := Target(sweep, db.runs[r].state).value;
      var half := db.runs[r].(state := s, reason := Some(reason));
      assert db.runs[r := half][r := SweptRun(db.runs[r], sweep, reason)] ==
             db.runs[r := SweptRun(db.runs[r], sweep, reason)];
    }
  }

  lemma SweepRowsUnion(db: Db, a: set<Id>, b: set<Id>, sweep: Sweep, reason: Reason)
    requires a !! b
    ensures var once := SweepRuns(db, a + b, sweep, reason);
            var twice := SweepRuns(SweepRuns(db, a, sweep, reason), b, sweep, reason);
            twice.runs == once.runs && twice.events == once.events
  {
    SweptUnion(db.runs, db.events, a, b, sweep, reason);
    hide SweptRuns, SweptLogs;
  }

  lemma SweptUnion(runs: map<Id, Run>, events: map<Id, seq<Event>>, a: set<Id>, b: set<Id>, sweep: Sweep,
                   reason: Reason)
    requires a !! b
    ensures var mid := SweptRuns(runs, a, sweep, reason);
            && SweptRuns(mid, b, sweep, reason) == SweptRuns(runs, a + b, sweep, reason)
            && SweptLogs(SweptLogs(events, runs, a, sweep, reason), mid, b, sweep, reason) ==
               SweptLogs(events, runs, a + b, sweep, reason)
  {
    hide SweptRun, SweptLog;
  }

  lemma DropUnion(db: Db, a: set<Id>, b: set<Id>)
    ensures DropProposals(DropProposals(db, a), b).proposals == DropProposals(db, a + b).proposals
  {}

  /** Disjoint stops add up. */
  lemma SweepUnion(db: Db, a: set<Id>, b: set<Id>, sweep: Sweep, reason: Reason)
    requires a !! b
    ensures SweepRuns(SweepRuns(db, a, sweep, reason), b, sweep, reason) == SweepRuns(db, a + b, sweep, reason)
  {
    var mid := SweepRuns(db, a, sweep, reason);
    SweepRowsUnion(db, a, b, sweep, reason);
    DropUnion(db, a, b);
    SweepFrame(db, a, sweep, reason);
    SweepFrame(mid, b, sweep, reason);
    SweepFrame(db, a + b, sweep, reason);
    DropSame(mid, DropProposals(db, a), b);
    hide SweepRuns, DropProposals;
  }

  lemma DropSame(x: Db, y: Db, sources: set<Id>)
    requires x.proposals == y.proposals
    ensures DropProposals(x, sources).proposals == DropProposals(y, sources).proposals
  {}

  lemma PauseNone(db: Db, reason: Reason)
    ensures PauseSchedules(db, {}, reason) == db
  {
    assert PausedOnly(db, {}, reason).schedules == db.schedules;
    assert RunsOf(db, {}) == {};
    SweepNone(db, Stop, reason);
  }

  /** A stop does not look at schedules, nor a pause's write at runs. */
  lemma SweepOnSchedules(db: Db, schedules: map<Id, Schedule>, victims: set<Id>, reason: Reason)
    ensures SweepRuns(db.(schedules := schedules), victims, Stop, reason) ==
            SweepRuns(db, victims, Stop, reason).(schedules := schedules)
  {
    var x := db.(schedules := schedules);
    DropSame(x, db, victims);
    hide SweptRun, SweptLog, Dropped, DropProposals;
    SweepFrame(x, victims, Stop, reason);
    SweepFrame(db, victims, Stop, reason);
    assert SweepRuns(x, victims, Stop, reason).runs == SweepRuns(db, victims, Stop, reason).runs;
    assert SweepRuns(x, victims, Stop, reason).events == SweepRuns(db, victims, Stop, reason).events;
  }

  lemma SweptRunsOf(db: Db, victims: set<Id>, reason: Reason, sids: set<Id>)
    ensures RunsOf(SweepRuns(db, victims, Stop, reason), sids) == RunsOf(db, sids)
  {}

  lemma PausedTwice(db: Db, a: set<Id>, s: Id, reason: Reason)
    requires s !in a
    ensures PausedOnly(PausedOnly(db, a, reason), {s}, reason) == PausedOnly(db, a + {s}, reason)
  {
    assert PausedOnly(PausedOnly(db, a, reason), {s}, reason).schedules == PausedOnly(db, a + {s}, reason).schedules;
  }

  lemma PauseForm(db: Db, sids: set<Id>, reason: Reason)
    ensures PauseSchedules(db, sids, reason) == SweepRuns(PausedOnly(db, sids, reason), RunsOf(db, sids), Stop, reason)
  {
    hide SweepRuns, RunsOf;
  }

  /** Pausing one schedule after another. */
  lemma PauseMore(db: Db, a: set<Id>, s: Id, reason: Reason)
    requires s !in a
    ensures PauseSchedules(PauseSchedules(db, a, reason), {s}, reason) == PauseSchedules(db, a + {s}, reason)
  {
    var swept := SweepRuns(db, RunsOf(db, a), Stop, reason);
    var first := PausedOnly(db, a, reason);
    SweepOnSchedules(db, first.schedules, RunsOf(db, a), reason);
    var mid := PauseSchedules(db, a, reason);
    PausedTwice(db, a, s, reason);
    RunsOfUnion(db, a, s);
    SweptRunsOf(first, RunsOf(db, a), reason, {s});
    PauseForm(db, a, reason);
    PauseForm(mid, {s}, reason);
    PauseForm(db, a + {s}, reason);
    PausedOnSwept(first, RunsOf(db, a), {s}, reason);
    hide SweepRuns, PauseSchedules, PausedOnly;
    SweepUnion(PausedOnly(first, {s}, reason), RunsOf(db, a), RunsOf(db, {s}), Stop, reason);
    assert RunsOf(mid, {s}) ==
           RunsOf(db, {s}) by { assert RunsOf(first, {s}) == RunsOf(db, {s}) by { PausedRunsOf(db, a, {s}, reason); } }
  }

  lemma PausedRunsOf(db: Db, a: set<Id>, sids: set<Id>, reason: Reason)
    ensures RunsOf(PausedOnly(db, a, reason), sids) == RunsOf(db, sids)
  {}

  lemma PausedOnSwept(db: Db, victims: set<Id>, sids: set<Id>, reason: Reason)
    ensures PausedOnly(SweepRuns(db, victims, Stop, reason), sids, reason) ==
            SweepRuns(PausedOnly(db, sids, reason), victims, Stop, reason)
  {
    SweepOnSchedules(db, PausedOnly(db, sids, reason).schedules, victims, reason);
    SweepFrame(db, victims, Stop, reason);
    hide SweepRuns;
  }

  lemma RunsOfUnion(db: Db, a: set<Id>, s: Id)
    requires s !in a
    ensures RunsOf(db, a) !! RunsOf(db, {s}) && RunsOf(db, a + {s}) == RunsOf(db, a) + RunsOf(db, {s})
  {}

  // ---------------------------------------------------------------- tables a stop does not touch

  /** The same tables but for authority records. */
  ghost predicate SameWork(x: Db, y: Db) {
    x == y.(workspaces := x.workspaces, grants := x.grants, interfaces := x.interfaces)
  }

  lemma SweepElsewhere(x: Db, y: Db, victims: set<Id>, reason: Reason)
    requires SameWork(x, y)
    ensures SameWork(SweepRuns(x, victims, Stop, reason), SweepRuns(y, victims, Stop, reason))
    ensures var b := SweepRuns(x, victims, Stop, reason);
            b.workspaces == x.workspaces && b.grants == x.grants && b.interfaces == x.interfaces
  {
    hide SweptRuns, SweptLogs, Dropped;
  }

  lemma PauseElsewhere(x: Db, y: Db, sids: set<Id>, reason: Reason)
    requires SameWork(x, y)
    ensures SameWork(PauseSchedules(x, sids, reason), PauseSchedules(y, sids, reason))
    ensures var b := PauseSchedules(x, sids, reason);
            b.workspaces == x.workspaces && b.grants == x.grants && b.interfaces == x.interfaces
  {
    PauseForm(x, sids, reason);
    PauseForm(y, sids, reason);
    hide SweepRuns, PauseSchedules;
    assert RunsOf(x, sids) == RunsOf(y, sids);
    SweepElsewhere(PausedOnly(x, sids, reason), PausedOnly(y, sids, reason), RunsOf(x, sids), reason);
  }
}
