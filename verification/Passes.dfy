/** The two passes over the rows, dispatch and scheduler, and the enabling of a schedule: what each
    does to every row, said of the tables and the clock. */
module Passes {
  import opened Wrappers
  import opened Engine
  import opened Verdicts
  import opened Writes
  import opened Withdrawals
  import opened Admissions
  import O = Outcomes
  import H = History
  import C = Cron
  import CL = CronLaws
  import CM = CronMeaning

  // ---------------------------------------------------------------- dispatch

  ghost predicate Queues(db: Db, r: Id) { r in db.runs && db.runs[r].state == Queued }

  /** The position of the first queued run that may act, or the end. */
  ghost function FirstReady(db: Db, env: Env, rows: seq<Id>): (i: nat)
    ensures i <= |rows|
    ensures i < |rows| ==> Queues(db, rows[i]) && MayAct(db, env, db.runs[rows[i]])
    ensures forall j | 0 <= j < i && Queues(db, rows[j]) :: !MayAct(db, env, db.runs[rows[j]])
  {
    if rows == [] || (Queues(db, rows[0]) && MayAct(db, env, db.runs[rows[0]])) then 0
    else
      var i := FirstReady(db, env, rows[1..]);
      assert forall j | 1 <= j < |rows| :: rows[j] == rows[1..][j - 1];
      1 + i
  }

  lemma FirstReadyIs(db: Db, env: Env, rows: seq<Id>)
    ensures FirstReady(db, env, rows) == O.First(db, env, rows)
  {
    hide MayAct, Fence;
    if rows != [] {
      if rows[0] in db.runs { FenceExactly(db, env, db.runs[rows[0]]); }
      FirstReadyIs(db, env, rows[1..]);
    }
  }

  /** What dispatch makes of a run: the first that may act starts, those queued before it are blocked
      for what stands against them. */
  ghost function TurnOf(db: Db, env: Env, rows: seq<Id>, r: Id): Option<(RunState, Option<Reason>)>
    requires r in db.runs
  {
    var first := FirstReady(db, env, rows);
    if first < |rows| && r == rows[first] then Some((Running, None))
    else if r in rows[..first] && Queues(db, r) && !MayAct(db, env, db.runs[r]) then
      Some((Blocked, Some(Fault(WhyNot(db, env, db.runs[r])))))
    else None
  }

  function LogOf(db: Db, r: Id): seq<Event> { if r in db.events then db.events[r] else [] }

  ghost predicate Turns(a: Db, b: Db, r: Id, turn: Option<(RunState, Option<Reason>)>)
    requires r in a.runs
  {
    && r in b.runs
    && b.runs[r] == (match turn
                     case None => a.runs[r]
                     case Some(t) => a.runs[r].(state := t.0, reason := t.1, lastSeq := a.runs[r].lastSeq + 1))
    && LogOf(b, r) == (match turn
                       case None => LogOf(a, r)
                       case Some(t) => LogOf(a, r) + [Event(a.runs[r].lastSeq + 1, StateChanged(t.0, t.1))])
  }

  ghost predicate Dispatches(a: Db, b: Db, env: Env, rows: seq<Id>) {
    && b == a.(runs := b.runs, events := b.events) && b.runs.Keys == a.runs.Keys
    && (forall r | r in a.runs :: Turns(a, b, r, TurnOf(a, env, rows, r)))
    && forall r | r !in a.runs :: LogOf(b, r) == LogOf(a, r)
  }

  lemma MovedTurn(db: Db, rid: Id, state: RunState, reason: Option<Reason>)
    requires rid in db.runs
    ensures var b := Move(db, rid, state, reason);
            && b == db.(runs := b.runs, events := b.events) && b.runs.Keys == db.runs.Keys
            && Turns(db, b, rid, Some((state, reason)))
            && (forall r | r in db.runs && r != rid :: Turns(db, b, r, None))
            && forall r | r !in db.runs :: LogOf(b, r) == LogOf(db, r)
  {
    MoveTells(db, rid, state, reason);
    assert Numbered(db.runs[rid].lastSeq, [StateChanged(state, reason)]) ==
           [Event(db.runs[rid].lastSeq + 1, StateChanged(state, reason))];
    hide Move, Numbered;
  }

  /** Two tables that differ in runs and logs only. */
  ghost predicate SameButRuns(a: Db, b: Db) { b == a.(runs := b.runs, events := b.events) }

  lemma WhyNotElsewhere(a: Db, b: Db, env: Env, run: Run)
    requires SameButRuns(a, b)
    ensures MayAct(a, env, run) <==> MayAct(b, env, run)
    ensures !MayAct(a, env, run) ==> WhyNot(a, env, run) == WhyNot(b, env, run)
  {
    O.FenceElsewhere(a, b, env, run);
    FenceExactly(a, env, run);
    FenceExactly(b, env, run);
    if !MayAct(a, env, run) {
      FenceCode(a, env, run);
      FenceCode(b, env, run);
    }
    hide Fence, MayAct, WhyNot;
  }

  lemma {:induction false} FirstReadyElsewhere(a: Db, b: Db, env: Env, rows: seq<Id>)
    requires SameButRuns(a, b)
    requires forall i | 0 <= i < |rows| :: rows[i] in b.runs <==> rows[i] in a.runs
    requires forall i | 0 <= i < |rows| && rows[i] in a.runs :: b.runs[rows[i]] == a.runs[rows[i]]
    ensures FirstReady(a, env, rows) == FirstReady(b, env, rows)
    decreases |rows|
  {
    hide MayAct, SameButRuns;
    if rows != [] {
      if rows[0] in a.runs { WhyNotElsewhere(a, b, env, a.runs[rows[0]]); }
      FirstReadyElsewhere(a, b, env, rows[1..]);
    }
  }

  /** The rest of the pass, after the head was blocked, does to every other run what the whole pass does. */
  lemma TurnAfterHead(a: Db, b: Db, env: Env, rows: seq<Id>, r: Id)
    requires Distinct(rows) && rows != [] && SameButRuns(a, b) && a.runs.Keys == b.runs.Keys && r in a.runs
             && r != rows[0]
    requires forall q | q in a.runs && q != rows[0] :: b.runs[q] == a.runs[q]
    requires FirstReady(a, env, rows) > 0
    ensures TurnOf(a, env, rows, r) == TurnOf(b, env, rows[1..], r)
  {
    hide MayAct, SameButRuns, WhyNot;
    var first, tail := FirstReady(a, env, rows), rows[1..];
    assert forall i | 0 <= i < |tail| :: tail[i] == rows[i + 1] && tail[i] != rows[0];
    FirstReadyElsewhere(a, b, env, tail);
    WhyNotElsewhere(a, b, env, a.runs[r]);
    O.PastHead(rows, first);
  }

  lemma HeadIsDone(b: Db, env: Env, rows: seq<Id>)
    requires Distinct(rows) && rows != [] && rows[0] in b.runs
    ensures TurnOf(b, env, rows[1..], rows[0]) == None
  {
    hide MayAct, WhyNot;
    assert forall i | 0 <= i < |rows[1..]| :: rows[1..][i] == rows[i + 1] && rows[1..][i] != rows[0];
  }

  /** Dispatch hands out the first queued run, in the order of the rows, that may act; the others
      before it are blocked with the first thing that stands against each; all else stays. */
  lemma {:induction false} StartExactly(db: Db, env: Env, rows: seq<Id>)
    requires Distinct(rows)
    ensures var (b, started) := StartFrom(db, env, rows);
            var first := FirstReady(db, env, rows);
            && started == (if first < |rows| then Some(rows[first]) else None)
            && Dispatches(db, b, env, rows)
    decreases |rows|
  {
    hide Fence, Move, MayAct, WhyNot, Turns;
    if rows == [] {
      Unturned(db);
    } else {
      var head, tail := rows[0], rows[1..];
      if !Queues(db, head) {
        StartExactly(db, env, tail);
        forall r | r in db.runs ensures TurnOf(db, env, rows, r) == TurnOf(db, env, tail, r) {
          if r != head { TurnAfterHead(db, db, env, rows, r); } else { HeadIsDone(db, env, rows); }
        }
      } else {
        FenceExactly(db, env, db.runs[head]);
        if MayAct(db, env, db.runs[head]) {
          MovedTurn(db, head, Running, None);
          assert rows[..0] == [];
        } else {
          FenceCode(db, env, db.runs[head]);
          HeadBlocked(db, env, rows);
        }
      }
    }
  }

  lemma Unturned(db: Db)
    ensures forall r | r in db.runs :: Turns(db, db, r, None)
  {}

  lemma TurnsOnce(a: Db, m: Db, b: Db, r: Id, turn: Option<(RunState, Option<Reason>)>)
    requires r in a.runs && r in m.runs
    requires (Turns(a, m, r, turn) && Turns(m, b, r, None)) || (Turns(a, m, r, None) && Turns(m, b, r, turn))
    ensures Turns(a, b, r, turn)
  {}

  lemma HeadBlocked(db: Db, env: Env, rows: seq<Id>)
    requires Distinct(rows) && rows != [] && Queues(db, rows[0]) && !MayAct(db, env, db.runs[rows[0]])
    ensures var (b, started) := StartFrom(db, env, rows);
            var first := FirstReady(db, env, rows);
            && started == (if first < |rows| then Some(rows[first]) else None)
            && Dispatches(db, b, env, rows)
    decreases |rows|, 0
  {
    hide Fence, Move, MayAct, WhyNot, Turns, TurnOf;
    var head, tail := rows[0], rows[1..];
    FenceCode(db, env, db.runs[head]);
    var reason := Some(Fault(WhyNot(db, env, db.runs[head])));
    var next := Move(db, head, Blocked, reason);
    MovedTurn(db, head, Blocked, reason);
    assert forall i | 0 <= i < |tail| :: tail[i] == rows[i + 1] && tail[i] != head;
    SameRows(db, next, head);
    FirstReadyElsewhere(db, next, env, tail);
    StartExactly(next, env, tail);
    var b := StartFrom(next, env, tail).0;
    forall r | r in db.runs ensures Turns(db, b, r, TurnOf(db, env, rows, r)) {
      if r == head {
        HeadIsDone(next, env, rows);
        HeadTurn(db, env, rows);
      } else {
        TurnAfterHead(db, next, env, rows, r);
      }
      TurnsOnce(db, next, b, r, TurnOf(db, env, rows, r));
    }
  }

  lemma HeadTurn(db: Db, env: Env, rows: seq<Id>)
    requires rows != [] && Distinct(rows) && Queues(db, rows[0]) && !MayAct(db, env, db.runs[rows[0]])
    ensures TurnOf(db, env, rows, rows[0]) == Some((Blocked, Some(Fault(WhyNot(db, env, db.runs[rows[0]])))))
    ensures FirstReady(db, env, rows) == 1 + FirstReady(db, env, rows[1..])
  {
    hide MayAct, WhyNot;
    var first := FirstReady(db, env, rows);
    assert rows[..first][0] == rows[0];
  }

  lemma SameRows(a: Db, b: Db, head: Id)
    requires head in a.runs && b.runs.Keys == a.runs.Keys && forall r | r in a.runs && r != head :: Turns(a, b, r, None)
    ensures forall r | r in a.runs && r != head :: b.runs[r] == a.runs[r]
  {}

  // ---------------------------------------------------------------- the next minute of a schedule

  ghost predicate DueMinute(s: Schedule, cal: C.Calendar, after: int, at: int) {
    after < at < s.endAt && at < after + 31_622_400_000 && CM.MinuteOf(s.cron, cal, at)
  }

  /** The least minute after `after`, before the schedule's end and less than 366 days on, that fits the
      text of its expression; None when there is no such minute. */
  ghost predicate NextMinute(s: Schedule, cal: C.Calendar, after: int, next: Option<int>) {
    && (next.Some? ==> DueMinute(s, cal, after, next.value))
    && forall m | DueMinute(s, cal, after, m) :: next.Some? && next.value <= m
  }

  lemma NextExactly(s: Schedule, cal: C.Calendar, after: int)
    requires CL.FromText(s.cron)
    ensures NextMinute(s, cal, after, C.NextDue(s.cron, cal, after, s.endAt))
    ensures forall next | NextMinute(s, cal, after, next) :: next == C.NextDue(s.cron, cal, after, s.endAt)
  {
    hide C.NextDue, C.Matches, CM.MinuteOf, CL.FromText;
    CL.NextDueIsLeast(s.cron, cal, after, s.endAt);
    forall at ensures DueMinute(s, cal, after, at) <==> CL.Due(s.cron, cal, after, s.endAt, at) {
      CM.MinuteExactly(s.cron, cal, at);
    }
    hide DueMinute, CL.Due;
  }

  // ---------------------------------------------------------------- enabling

  /** The operator consents to what the schedule now is, everything it needs stands, an attempt and
      time are left, and some minute is still to come. */
  ghost predicate MayEnable(db: Db, env: Env, sid: Id, expected: nat, consent: Consent) {
    && ScheduleAt(db, sid, expected)
    && var s := db.schedules[sid];
    && consent.scheduleVersion == s.version && consent.modelId == s.modelId && consent.grantRefs == s.grantRefs
    && env.ready && WorkspaceStands(db, s.workspaceId) && InterfaceStands(db, s.interfaceId)
    && GrantsStand(db, env, s.workspaceId, s.modelId, s.grantRefs) && s.modelId in env.models
    && s.runsStarted < s.maxRuns && env.now < s.endAt && exists at :: DueMinute(s, env.cfg.calendar, env.now, at)
  }

  lemma EnableIff(db: Db, env: Env, sid: Id, expected: nat, consent: Consent)
    requires sid in db.schedules ==> CL.FromText(db.schedules[sid].cron)
    ensures EnableSchedule(db, env, sid, expected, consent).Ok? <==> MayEnable(db, env, sid, expected, consent)
  {
    hide C.NextDue, GrantsStand, CheckGrants, NextMinute, CL.FromText, DueMinute;
    if sid in db.schedules {
      var s := db.schedules[sid];
      GrantsExactly(db, env, s.workspaceId, s.modelId, s.grantRefs);
      SomeMinute(s, env.cfg.calendar, env.now);
    }
  }

  lemma EnableWrites(db: Db, env: Env, sid: Id, expected: nat, consent: Consent)
    requires EnableSchedule(db, env, sid, expected, consent).Ok?
    ensures sid in db.schedules
    ensures var s := db.schedules[sid];
            var next := C.NextDue(s.cron, env.cfg.calendar, env.now, s.endAt);
            EnableSchedule(db, env, sid, expected, consent).value ==
              db.(schedules := db.schedules[sid :=
                    s.(state := Enabled, version := s.version + 1, nextRunAt := next, reason := None)])
  {
    hide C.NextDue, CheckGrants;
  }

  lemma EnableExactly(db: Db, env: Env, sid: Id, expected: nat, consent: Consent)
    requires sid in db.schedules ==> CL.FromText(db.schedules[sid].cron)
    ensures var r := EnableSchedule(db, env, sid, expected, consent);
            && (r.Ok? <==> MayEnable(db, env, sid, expected, consent))
            && (r.Ok? ==>
                  && sid in db.schedules
                  && var s := db.schedules[sid];
                  exists next ::
                    && NextMinute(s, env.cfg.calendar, env.now, next)
                    && r.value == db.(schedules := db.schedules[sid :=
                                        s.(state := Enabled, version := s.version + 1, nextRunAt := next,
                                           reason := None)]))
  {
    hide EnableSchedule, MayEnable, C.NextDue, NextMinute, CL.FromText;
    EnableIff(db, env, sid, expected, consent);
    if EnableSchedule(db, env, sid, expected, consent).Ok? {
      EnableWrites(db, env, sid, expected, consent);
      NextExactly(db.schedules[sid], env.cfg.calendar, env.now);
    }
  }

  lemma SomeMinute(s: Schedule, cal: C.Calendar, after: int)
    requires CL.FromText(s.cron)
    ensures C.NextDue(s.cron, cal, after, s.endAt).Some? <==> exists at :: DueMinute(s, cal, after, at)
  {
    NextExactly(s, cal, after);
    hide C.NextDue, DueMinute, CL.FromText;
  }

  /** What stands against an enabling, in the order in which the source looks. */
  ghost function WhyNotEnabled(db: Db, env: Env, sid: Id, expected: nat, consent: Consent): Code
    requires !MayEnable(db, env, sid, expected, consent)
  {
    if sid !in db.schedules then NotFound
    else
      var s := db.schedules[sid];
      if s.deleted then Tombstoned
      else if expected < 1 then InvalidRequest
      else if s.version != expected then RevisionConflict
      else if consent != Consent(s.version, s.modelId, s.grantRefs) then ConsentMismatch
      else if !env.ready then RuntimeUnavailable
      else if s.workspaceId !in db.workspaces then NotFound
      else if db.workspaces[s.workspaceId].deleted then Tombstoned
      else if s.interfaceId !in db.interfaces then NotFound
      else if db.interfaces[s.interfaceId].deleted then Tombstoned
      else if !GrantsStand(db, env, s.workspaceId, s.modelId, s.grantRefs) then
        if s.grantRefs[FirstFallen(db, env, s.workspaceId, s.modelId, s.grantRefs)].id in db.grants then GrantDenied
        else NotFound
      else if s.modelId !in env.models then ModelUnavailable
      else if s.runsStarted >= s.maxRuns || s.endAt <= env.now then ScheduleEnded
      else InvalidRequest
  }

  lemma EnableCode(db: Db, env: Env, sid: Id, expected: nat, consent: Consent)
    requires sid in db.schedules ==> CL.FromText(db.schedules[sid].cron)
    requires !MayEnable(db, env, sid, expected, consent)
    ensures EnableSchedule(db, env, sid, expected, consent) == Err(WhyNotEnabled(db, env, sid, expected, consent))
  {
    hide C.NextDue, GrantsStand, CheckGrants, DueMinute, CL.FromText, FirstFallen;
    if sid in db.schedules {
      var s := db.schedules[sid];
      GrantsExactly(db, env, s.workspaceId, s.modelId, s.grantRefs);
      if !GrantsStand(db, env, s.workspaceId, s.modelId, s.grantRefs) {
        GrantsCode(db, env, s.workspaceId, s.modelId, s.grantRefs);
      }
      SomeMinute(s, env.cfg.calendar, env.now);
    }
  }

  // ---------------------------------------------------------------- the scheduler

  /** The run a schedule asks for. */
  function AskedBy(s: Schedule): RunInput {
    RunInput(s.workspaceId, s.prompt, s.modelId, s.grantRefs, [s.interfaceId], s.budgets, [])
  }

  /** What a pass leaves of a due minute: missed when it is a minute old, else the run it admitted, or
      the code it was refused with and, at most, the workspace record. */
  ghost predicate SettledAt(a: Db, b: Db, env: Env, sid: Id, newId: Id, next: Option<int>)
    requires sid in a.schedules && a.schedules[sid].nextRunAt.Some?
  {
    var s, due := a.schedules[sid], a.schedules[sid].nextRunAt.value;
    var after, asked := s.(nextRunAt := next), AskedBy(s);
    if env.now - due >= 60_000 then
      b == a.(occurrences := a.occurrences[(sid, due) := Missed], schedules := a.schedules[sid := after])
    else if MayBeAdmitted(a, env, asked, newId, Some((sid, after))) then
      b == AdmittedAs(a, env, asked, newId, Some((sid, after))).(
             occurrences := a.occurrences[(sid, due) := Admitted(newId)],
             schedules := a.schedules[sid := after.(runsStarted := s.runsStarted + 1, lastRunId := Some(newId))])
    else
      var code := WhyRefused(a, env, asked, newId, Some((sid, after)));
      var kept := if MayAsk(a, env, asked, newId) && WorkspaceTakes(a, asked) then Recorded(a, s.workspaceId) else a;
      b == kept.(occurrences := a.occurrences[(sid, due) := Refused(code)],
                 schedules := a.schedules[sid := after.(reason := Some(Fault(code)))])
  }

  ghost predicate Settled(a: Db, b: Db, env: Env, sid: Id, newId: Id)
    requires sid in a.schedules && a.schedules[sid].nextRunAt.Some?
  {
    exists next :: NextMinute(a.schedules[sid], env.cfg.calendar, env.now, next)
        && SettledAt(a, b, env, sid, newId, next)
  }

  /** A pass ends an enabled schedule that is out of time or of attempts, settles its minute when that
      has come and was not settled before, and leaves every other schedule alone. */
  ghost predicate Ticked(a: Db, b: Db, env: Env, sid: Id, newId: Id) {
    if sid !in a.schedules || a.schedules[sid].deleted || a.schedules[sid].state != Enabled then b == a
    else
      var s := a.schedules[sid];
      if s.endAt <= env.now || s.maxRuns <= s.runsStarted then
        b == a.(schedules := a.schedules[sid := s.(state := Ended, nextRunAt := None)])
      else if s.nextRunAt == None || env.now < s.nextRunAt.value || (sid, s.nextRunAt.value) in a.occurrences
          then b == a
      else Settled(a, b, env, sid, newId)
  }

  lemma TickOneExactly(db: Db, env: Env, sid: Id, newId: Id)
    requires sid in db.schedules ==> CL.FromText(db.schedules[sid].cron)
    ensures Ticked(db, TickOne(db, env, sid, newId), env, sid, newId)
  {
    hide Attempt, Settled, CL.FromText, C.NextDue;
    if sid in db.schedules && db.schedules[sid].nextRunAt.Some? { AttemptExactly(db, env, sid, newId); }
  }

  lemma AttemptExactly(db: Db, env: Env, sid: Id, newId: Id)
    requires sid in db.schedules && db.schedules[sid].nextRunAt.Some? && CL.FromText(db.schedules[sid].cron)
    ensures Settled(db, Attempt(db, env, sid, db.schedules[sid].nextRunAt.value, newId), env, sid, newId)
  {
    hide Attempt, SettledAt, NextMinute, CL.FromText, C.NextDue;
    NextExactly(db.schedules[sid], env.cfg.calendar, env.now);
    AttemptWrites(db, env, sid, newId);
  }

  lemma AttemptWrites(db: Db, env: Env, sid: Id, newId: Id)
    requires sid in db.schedules && db.schedules[sid].nextRunAt.Some?
    ensures var s := db.schedules[sid];
            var next := C.NextDue(s.cron, env.cfg.calendar, env.now, s.endAt);
            SettledAt(db, Attempt(db, env, sid, s.nextRunAt.value, newId), env, sid, newId, next)
  {
    hide CreateRun, MayBeAdmitted, AdmittedAs, WhyRefused, MayAsk, WorkspaceTakes, C.NextDue, Recorded;
    var s := db.schedules[sid];
    var after := s.(nextRunAt := C.NextDue(s.cron, env.cfg.calendar, env.now, s.endAt));
    assert AskedBy(s) == ScheduledInput(after);
    AttemptCreates(db, env, AskedBy(s), newId, (sid, after));
  }

  /** Admission for a schedule, as a scheduler pass sees it. */
  lemma AttemptCreates(db: Db, env: Env, v: RunInput, rid: Id, pair: (Id, Schedule))
    ensures MayBeAdmitted(db, env, v, rid, Some(pair)) ==>
              && CreateRun(db, env, v, rid, Some(pair)) == (AdmittedAs(db, env, v, rid, Some(pair)), Pass)
              && AdmittedAs(db, env, v, rid, Some(pair)).schedules == db.schedules
              && AdmittedAs(db, env, v, rid, Some(pair)).occurrences == db.occurrences
    ensures !MayBeAdmitted(db, env, v, rid, Some(pair)) ==>
              && CreateRun(db, env, v, rid, Some(pair)) ==
                   (if MayAsk(db, env, v, rid) && WorkspaceTakes(db, v) then Recorded(db, v.workspaceId) else db,
                    Fail(WhyRefused(db, env, v, rid, Some(pair))))
    ensures Recorded(db, v.workspaceId).schedules == db.schedules
            && Recorded(db, v.workspaceId).occurrences == db.occurrences
  {
    hide CreateRun, MayBeAdmitted, AdmittedAs, WhyRefused, MayAsk, WorkspaceTakes, Recorded;
    RecordedElsewhere(db, v.workspaceId);
    CreateRunExactly(db, env, v, rid, Some(pair));
    if MayBeAdmitted(db, env, v, rid, Some(pair)) {
      AdmittedElsewhere(db, env, v, rid, pair);
    } else {
      RefusalExactly(db, env, v, rid, Some(pair));
    }
  }

  lemma AdmittedElsewhere(db: Db, env: Env, v: RunInput, rid: Id, pair: (Id, Schedule))
    requires MayBeAdmitted(db, env, v, rid, Some(pair))
    ensures var b := AdmittedAs(db, env, v, rid, Some(pair));
            b.schedules == db.schedules && b.occurrences == db.occurrences
  {
    RecordedElsewhere(db, v.workspaceId);
    hide Recorded;
  }

  // ---------------------------------------------------------------- the whole pass

  ghost predicate Texts(db: Db) { forall s | s in db.schedules :: CL.FromText(db.schedules[s].cron) }

  /** The states of a pass: before each row, and after the last. */
  ghost predicate Passes(states: seq<Db>, env: Env, rows: seq<Id>, newIds: seq<Id>)
    requires |newIds| == |rows|
  {
    |states| == |rows| + 1 && forall i | 0 <= i < |rows| :: Ticked(states[i], states[i + 1], env, rows[i], newIds[i])
  }

  lemma CreateKeepsSchedules(db: Db, env: Env, v: RunInput, rid: Id, schedule: Option<(Id, Schedule)>)
    ensures CreateRun(db, env, v, rid, schedule).0.schedules == db.schedules
  {
    hide Admissible, Placeable, H.RuntimeHistory;
  }

  ghost predicate SameTexts(a: map<Id, Schedule>, b: map<Id, Schedule>) {
    forall s | s in b :: s in a && b[s].cron == a[s].cron
  }

  lemma SettleKeepsTexts(db: Db, m: Db, sid: Id, s: Schedule, slot: int, outcome: Occurrence)
    requires m.schedules == db.schedules && sid in db.schedules && s.cron == db.schedules[sid].cron
    ensures SameTexts(db.schedules, Settle(m, sid, s, slot, outcome).schedules)
  {}

  lemma AttemptKeepsTexts(db: Db, env: Env, sid: Id, due: int, newId: Id)
    requires sid in db.schedules
    ensures SameTexts(db.schedules, Attempt(db, env, sid, due, newId).schedules)
  {
    hide CreateRun, C.NextDue, SameTexts, Settle;
    var s := db.schedules[sid].(nextRunAt := C.NextDue(db.schedules[sid].cron, env.cfg.calendar, env.now,
                                                       db.schedules[sid].endAt));
    CreateKeepsSchedules(db, env, ScheduledInput(s), newId, Some((sid, s)));
    var (placed, outcome) := CreateRun(db, env, ScheduledInput(s), newId, Some((sid, s)));
    if env.now - due >= C.MINUTE {
      SettleKeepsTexts(db, db, sid, s, due, Missed);
    } else if outcome.Fail? {
      SettleKeepsTexts(db, placed, sid, s.(reason := Some(Fault(outcome.error))), due, Refused(outcome.error));
    } else {
      SettleKeepsTexts(db, placed, sid, s.(runsStarted := s.runsStarted + 1, lastRunId := Some(newId)), due,
                       Admitted(newId));
    }
  }

  lemma SameText(a: map<Id, Schedule>)
    ensures SameTexts(a, a)
  {}

  lemma EndedText(a: map<Id, Schedule>, sid: Id)
    requires sid in a
    ensures SameTexts(a, a[sid := a[sid].(state := Ended, nextRunAt := None)])
  {}

  lemma TickSameTexts(db: Db, env: Env, sid: Id, newId: Id)
    ensures SameTexts(db.schedules, TickOne(db, env, sid, newId).schedules)
  {
    hide Attempt, SameTexts;
    SameText(db.schedules);
    if sid in db.schedules {
      var s := db.schedules[sid];
      EndedText(db.schedules, sid);
      if s.nextRunAt.Some? { AttemptKeepsTexts(db, env, sid, s.nextRunAt.value, newId); }
      var b := TickOne(db, env, sid, newId);
      assert b == db || b == db.(schedules := db.schedules[sid := s.(state := Ended, nextRunAt := None)])
          || (s.nextRunAt.Some? && b == Attempt(db, env, sid, s.nextRunAt.value, newId));
    }
  }

  lemma TickKeepsTexts(db: Db, env: Env, sid: Id, newId: Id)
    requires Texts(db)
    ensures Texts(TickOne(db, env, sid, newId))
  {
    hide CL.FromText, TickOne;
    TickSameTexts(db, env, sid, newId);
  }

  /** A scheduler pass is one tick of each row, in the order of the rows. */
  lemma {:induction false} TickExactly(db: Db, env: Env, rows: seq<Id>, newIds: seq<Id>) returns (states: seq<Db>)
    requires |newIds| == |rows| && Texts(db)
    ensures Passes(states, env, rows, newIds)
    ensures states[0] == db && states[|rows|] == Tick(db, env, rows, newIds)
    decreases |rows|
  {
    hide Ticked, TickOne, Texts;
    if rows == [] {
      states := [db];
    } else {
      var next := TickOne(db, env, rows[0], newIds[0]);
      TextOf(db, rows[0]);
      TickOneExactly(db, env, rows[0], newIds[0]);
      TickKeepsTexts(db, env, rows[0], newIds[0]);
      var rest := TickExactly(next, env, rows[1..], newIds[1..]);
      states := [db] + rest;
      forall i | 0 <= i < |rows| ensures Ticked(states[i], states[i + 1], env, rows[i], newIds[i]) {
        if i > 0 {
          assert states[i] == rest[i - 1] && states[i + 1] == rest[i];
          assert rows[1..][i - 1] == rows[i] && newIds[1..][i - 1] == newIds[i];
        }
      }
    }
  }

  lemma TextOf(db: Db, sid: Id)
    requires Texts(db)
    ensures sid in db.schedules ==> CL.FromText(db.schedules[sid].cron)
  {}
}
