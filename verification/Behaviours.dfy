/** What holds over whole runs of the engine, from the empty tables, under any interleaving of
    requests, worker calls, scheduler passes and restarts and a clock that does not run backwards. */
module Behaviours {
  import opened Wrappers
  import opened Engine
  import opened Invariant
  import opened RunSteps
  import opened Scheduling
  import opened Successes
  import opened System
  import opened Work
  import H = History
  import HL = HistoryLaws
  import C = Cron
  import CL = CronLaws
  import CM = CronMeaning
  import F = Frames

  datatype Moment = Moment(now: int, ready: bool, models: set<Id>, action: Action)

  function EnvAt(cfg: Config, m: Moment): Env { Env(cfg, m.now, m.ready, m.models) }

  /** `trace[i]` is the state before `moments[i]`, and the last state follows the last moment. */
  ghost predicate Behaviour(cfg: Config, trace: seq<State>, moments: seq<Moment>) {
    && |trace| == |moments| + 1 && trace[0] == START
    && (forall i, j | 0 <= i < j < |moments| :: moments[i].now <= moments[j].now)
    && (forall i | 0 <= i < |moments| :: Permitted(trace[i], moments[i].action))
    && (forall i | 0 <= i < |moments| :: trace[i + 1] == Act(trace[i], EnvAt(cfg, moments[i]), moments[i].action))
  }

  /** A time no earlier than the last moment before state `i`, and no later than the next. */
  ghost predicate TimeOf(moments: seq<Moment>, i: nat, t: int) {
    (0 < i <= |moments| ==> moments[i - 1].now <= t) && (i < |moments| ==> t <= moments[i].now)
  }

  // ---------------------------------------------------------------- the two inductions

  /** The joint invariant holds in every reachable state. */
  lemma {:induction false} Always(cfg: Config, trace: seq<State>, moments: seq<Moment>, i: nat, t: int)
    requires Behaviour(cfg, trace, moments) && i <= |moments| && (i > 0 ==> moments[i - 1].now <= t)
    ensures Inv(trace[i].db, cfg, t)
  {
    hide Inv, Act, Permitted, Advances;
    if i == 0 {
      EmptyIsInvariant(cfg, t);
    } else {
      var m := moments[i - 1];
      Always(cfg, trace, moments, i - 1, m.now);
      StepKeepsInv(trace[i - 1], EnvAt(cfg, m), m.action);
      assert trace[i - 1 + 1] == Act(trace[i - 1], EnvAt(cfg, m), m.action);
      InvLater(trace[i].db, cfg, m.now, t);
    }
  }

  /** Every later state is an advance on every earlier one. */
  lemma {:induction false} Between(cfg: Config, trace: seq<State>, moments: seq<Moment>, i: nat, j: nat, t: int)
    requires Behaviour(cfg, trace, moments) && i <= j <= |moments| && TimeOf(moments, i, t)
    ensures Advances(trace[i].db, trace[j].db, t)
    decreases j
  {
    hide Inv, Act, Permitted, Advances;
    if i == j {
      Always(cfg, trace, moments, i, t);
      Same(trace[i].db, cfg, t);
    } else {
      var m := moments[j - 1];
      Between(cfg, trace, moments, i, j - 1, t);
      Always(cfg, trace, moments, j - 1, m.now);
      StepKeepsInv(trace[j - 1], EnvAt(cfg, m), m.action);
      assert trace[j - 1 + 1] == Act(trace[j - 1], EnvAt(cfg, m), m.action);
      AdvancesTransitive(trace[i].db, trace[j - 1].db, trace[j].db, t, m.now);
    }
  }

  /** A time to read state `i` at. */
  function ReadAt(moments: seq<Moment>, i: nat): int
    requires i <= |moments|
  {
    if i > 0 then moments[i - 1].now else if |moments| > 0 then moments[0].now else 0
  }

  lemma ReadAtIsTime(cfg: Config, trace: seq<State>, moments: seq<Moment>, i: nat)
    requires Behaviour(cfg, trace, moments) && i <= |moments|
    ensures TimeOf(moments, i, ReadAt(moments, i))
  {
    hide Act, Permitted;
  }

  lemma Ordered(cfg: Config, trace: seq<State>, moments: seq<Moment>, i: nat, j: nat)
    requires Behaviour(cfg, trace, moments) && i <= j <= |moments|
    ensures |trace| == |moments| + 1
    ensures Advances(trace[i].db, trace[j].db, ReadAt(moments, i))
    ensures Inv(trace[i].db, cfg, ReadAt(moments, i)) && Inv(trace[j].db, cfg, ReadAt(moments, j))
  {
    hide Inv, Act, Permitted, Advances;
    ReadAtIsTime(cfg, trace, moments, i);
    Between(cfg, trace, moments, i, j, ReadAt(moments, i));
    Always(cfg, trace, moments, i, ReadAt(moments, i));
    Always(cfg, trace, moments, j, ReadAt(moments, j));
  }

  // ---------------------------------------------------------------- histories

  /** A workspace's committed history is only ever extended, until the workspace is deleted; a
      deleted workspace stays deleted and keeps nothing. */
  lemma HistoriesAppendOnly(cfg: Config, trace: seq<State>, moments: seq<Moment>, i: nat, j: nat, w: Id)
    requires Behaviour(cfg, trace, moments) && i <= j <= |moments| && w in trace[i].db.workspaces
    ensures w in trace[j].db.workspaces
    ensures !trace[j].db.workspaces[w].deleted ==>
            trace[i].db.workspaces[w].history <= trace[j].db.workspaces[w].history
    ensures trace[j].db.workspaces[w].deleted ==> trace[j].db.workspaces[w].history == []
    ensures trace[i].db.workspaces[w].deleted ==> trace[j].db.workspaces[w].deleted
  {
    hide Behaviour, Inv;
    Ordered(cfg, trace, moments, i, j);
    assert WorkspaceAdvances(trace[i].db.workspaces[w], trace[j].db.workspaces[w]);
    WorkspaceOf(trace[j].db, w, cfg, ReadAt(moments, j));
  }

  lemma WorkspaceOf(db: Db, w: Id, cfg: Config, t: int)
    requires Inv(db, cfg, t) && w in db.workspaces
    ensures WorkspaceInv(cfg, db.workspaces[w])
  {
    hide RowsOf, LogsInv, ExclusiveInv, LiveInv, ChainInv, ProposalsInv, RequestsInv, RefreshesInv, SchedulesInv;
  }

  /** A successful operator run commits a history that strictly extends what its workspace had
      committed when it finished, beginning with the operator's own message. */
  lemma OperatorSuccessExtends(db: Db, env: Env, rid: Id, result: Option<WorkerResult>, failure: Option<Code>,
                               newId: Id)
    requires Inv(db, env.cfg, env.now) && rid in db.runs && db.runs[rid].schedule.None? && Live(db.runs[rid].state)
    requires Complete(db, env, rid, result, failure, newId).Ok?
    ensures var wid := db.runs[rid].input.workspaceId;
            var b := Finish(db, env, rid, result, failure, newId);
            && b.Ok? && wid in db.workspaces && wid in b.value.workspaces && rid in b.value.runs
               && b.value.runs[rid].state.Succeeded?
            && var before := db.workspaces[wid].history;
            && var after := b.value.workspaces[wid].history;
            before < after && after[|before|] == H.User(db.runs[rid].input.message, None)
                && HL.Stored(env.cfg.codec, after)
  {
    hide Inv, AcceptResult, Complete, Succeed, HL.Stored, CloseRequests;
    CapturedIsCommitted(db, rid, env.cfg, env.now);
    OperatorCommits(db, env, rid, result, failure, newId);
    AcceptedOnSuccess(db, env, rid, result, failure, newId);
    AcceptedExtends(env, db.runs[rid], result);
    SucceedElsewhere(db, rid, result.value.finalResponse);
    CloseElsewhere(Complete(db, env, rid, result, failure, newId).value, rid);
  }

  lemma AcceptedOnSuccess(db: Db, env: Env, rid: Id, result: Option<WorkerResult>, failure: Option<Code>, newId: Id)
    requires rid in db.runs && Complete(db, env, rid, result, failure, newId).Ok?
    ensures AcceptResult(env, db.runs[rid], result).Ok?
  {
    hide AcceptResult, Fence, PublishRefresh, CommitHistory, Emit, Move;
  }

  lemma CloseElsewhere(db: Db, rid: Id)
    ensures CloseRequests(db, rid) == db.(tools := CloseRequests(db, rid).tools)
  {}

  // ---------------------------------------------------------------- authority

  /** Live work always has what it was admitted with. */
  lemma LiveWorkHasAuthority(cfg: Config, trace: seq<State>, moments: seq<Moment>, i: nat)
    requires Behaviour(cfg, trace, moments) && i <= |moments|
    ensures var db := trace[i].db;
            && (forall r | r in db.runs && Live(db.runs[r].state) :: RunLive(db, cfg, db.runs[r]))
            && (forall s | s in db.schedules && db.schedules[s].state.Enabled? ::
                ScheduleLive(db, cfg, db.schedules[s]))
  {
    hide Behaviour, RunLive, ScheduleLive, RowsOf, LogsInv, ExclusiveInv, HistoryInv, ChainInv, ProposalsInv,
        RequestsInv, RefreshesInv, SchedulesInv;
    Ordered(cfg, trace, moments, i, i);
  }

  // ---------------------------------------------------------------- exclusive admission

  /** At most eight runs are unfinished; no two of them share a workspace or a connection. */
  lemma AdmissionIsExclusive(cfg: Config, trace: seq<State>, moments: seq<Moment>, i: nat)
    requires Behaviour(cfg, trace, moments) && i <= |moments|
    ensures |Active(trace[i].db.runs)| <= QUEUE_LIMIT
    ensures forall r, q | r in Active(trace[i].db.runs) && q in Active(trace[i].db.runs) && r != q ::
              Apart(trace[i].db.runs[r], trace[i].db.runs[q])
  {
    hide Behaviour, RowsOf, LogsInv, LiveInv, HistoryInv, ChainInv, ProposalsInv, RequestsInv, RefreshesInv,
        SchedulesInv;
    Ordered(cfg, trace, moments, i, i);
  }

  /** What two live runs were granted leads to different connections. */
  lemma ConnectionsAreDisjoint(cfg: Config, trace: seq<State>, moments: seq<Moment>, i: nat, r: Id, q: Id, m: nat,
                               n: nat)
    requires Behaviour(cfg, trace, moments) && i <= |moments| && r != q
    requires r in trace[i].db.runs && Live(trace[i].db.runs[r].state) && m < |trace[i].db.runs[r].input.grantRefs|
    requires q in trace[i].db.runs && Live(trace[i].db.runs[q].state) && n < |trace[i].db.runs[q].input.grantRefs|
    ensures var db := trace[i].db;
            var a, b := db.runs[r].input.grantRefs[m].id, db.runs[q].input.grantRefs[n].id;
            && a in db.grants && b in db.grants && db.grants[a].connectionId != db.grants[b].connectionId
  {
    var db := trace[i].db;
    LiveWorkHasAuthority(cfg, trace, moments, i);
    AdmissionIsExclusive(cfg, trace, moments, i);
    hide Behaviour;
    assert RunLive(db, cfg, db.runs[r]) && RunLive(db, cfg, db.runs[q]);
    assert GrantLive(db.grants, cfg, db.runs[r].input.workspaceId, db.runs[r].input.modelId,
                     db.runs[r].input.grantRefs[m]);
    assert GrantLive(db.grants, cfg, db.runs[q].input.workspaceId, db.runs[q].input.modelId,
                     db.runs[q].input.grantRefs[n]);
    assert Apart(db.runs[r], db.runs[q]);
  }

  /** No run ever makes more tool calls or model requests than it was given, no day sees more model
      requests than its limit, and a run's deadline is as long after its admission as it was given. */
  lemma BudgetsHold(cfg: Config, trace: seq<State>, moments: seq<Moment>, i: nat, r: Id, day: int)
    requires Behaviour(cfg, trace, moments) && i <= |moments|
    ensures r in trace[i].db.runs ==> WithinBudget(trace[i].db.runs[r])
    ensures day in trace[i].db.usage ==> trace[i].db.usage[day] <= cfg.dailyLimit
  {
    hide Behaviour, Inv;
    Ordered(cfg, trace, moments, i, i);
    UsageOf(trace[i].db, cfg, ReadAt(moments, i));
    if r in trace[i].db.runs { LogOf(trace[i].db, r, cfg, ReadAt(moments, i)); }
  }

  /** A run that is over stays as it ended; one that is stopping never acts again. */
  lemma TerminalIsFinal(cfg: Config, trace: seq<State>, moments: seq<Moment>, i: nat, j: nat, r: Id)
    requires Behaviour(cfg, trace, moments) && i <= j <= |moments| && r in trace[i].db.runs
    ensures r in trace[j].db.runs
    ensures Terminal(trace[i].db.runs[r].state) ==> trace[j].db.runs[r].state == trace[i].db.runs[r].state
    ensures trace[i].db.runs[r].state.Cancelling? ==> !Live(trace[j].db.runs[r].state)
  {
    hide Behaviour, Inv;
    Ordered(cfg, trace, moments, i, j);
    assert RunAdvances(trace[i].db.runs[r], trace[j].db.runs[r]);
  }

  /** An id cancelled before admission is never admitted, and an admitted id never gets a receipt. */
  lemma RunsAndReceiptsApart(cfg: Config, trace: seq<State>, moments: seq<Moment>, i: nat, j: nat, r: Id)
    requires Behaviour(cfg, trace, moments) && i <= |moments| && j <= |moments|
    ensures !(r in trace[i].db.runs && r in trace[j].db.cancellations)
  {
    hide Behaviour, LogsInv, ExclusiveInv, LiveInv, HistoryInv, ChainInv, ProposalsInv, RequestsInv, RefreshesInv,
        SchedulesInv;
    if i <= j { Ordered(cfg, trace, moments, i, j); } else { Ordered(cfg, trace, moments, j, i); }
  }

  // ---------------------------------------------------------------- schedules

  /** Attempts are conserved: started, admitted and existing runs are one number, within bounds. */
  lemma AttemptsConserved(cfg: Config, trace: seq<State>, moments: seq<Moment>, i: nat, s: Id)
    requires Behaviour(cfg, trace, moments) && i <= |moments| && s in trace[i].db.schedules
    ensures var db := trace[i].db;
            db.schedules[s].runsStarted == |AdmittedSlots(db.occurrences, s)| ==
                |ScheduledRuns(db.runs, s)| <= db.schedules[s].maxRuns
  {
    hide Behaviour, RowsOf, LogsInv, ExclusiveInv, LiveInv, HistoryInv, ChainInv, ProposalsInv, RequestsInv,
        RefreshesInv, SlotsInv;
    Ordered(cfg, trace, moments, i, i);
    assert ScheduleInv(cfg, trace[i].db.schedules[s], s, trace[i].db, ReadAt(moments, i));
  }

  /** A schedule that has ended is never enabled again. */
  lemma EndedForGood(cfg: Config, trace: seq<State>, moments: seq<Moment>, i: nat, j: nat, s: Id)
    requires Behaviour(cfg, trace, moments) && i <= j <= |moments|
    requires s in trace[i].db.schedules && trace[i].db.schedules[s].state.Ended?
    ensures s in trace[j].db.schedules && !trace[j].db.schedules[s].state.Enabled?
  {
    hide Behaviour, RowsOf, LogsInv, ExclusiveInv, LiveInv, HistoryInv, ChainInv, ProposalsInv, RequestsInv,
        RefreshesInv, SlotsInv;
    Ordered(cfg, trace, moments, i, j);
    assert ScheduleInv(cfg, trace[i].db.schedules[s], s, trace[i].db, ReadAt(moments, i));
    assert ScheduleAdvances(trace[i].db.schedules[s], trace[j].db.schedules[s], ReadAt(moments, i));
  }

  /** The next due minute of an enabled schedule fits the text of its expression and lies before its
      end, and is later than every minute settled for it, so the scheduler's duplicate check never
      finds one. */
  lemma SlotsAdvance(cfg: Config, trace: seq<State>, moments: seq<Moment>, i: nat, s: Id)
    requires Behaviour(cfg, trace, moments) && i <= |moments| && s in trace[i].db.schedules
    requires trace[i].db.schedules[s].state.Enabled? && trace[i].db.schedules[s].nextRunAt.Some?
    ensures forall k | k in trace[i].db.occurrences && k.0 == s :: k.1 < trace[i].db.schedules[s].nextRunAt.value
    ensures (s, trace[i].db.schedules[s].nextRunAt.value) !in trace[i].db.occurrences
    ensures var row := trace[i].db.schedules[s];
            CM.MinuteOf(row.cron, cfg.calendar, row.nextRunAt.value) && row.nextRunAt.value < row.endAt
  {
    hide Behaviour, RowsOf, LogsInv, ExclusiveInv, LiveInv, HistoryInv, ChainInv, ProposalsInv, RequestsInv,
        RefreshesInv, SchedulesInv, C.Matches, CM.MinuteOf;
    Ordered(cfg, trace, moments, i, i);
    DueIsNew(trace[i].db, s, cfg, ReadAt(moments, i));
    var row := trace[i].db.schedules[s];
    CronsHaveText(cfg, trace, moments, i, s);
    CM.MinuteExactly(row.cron, cfg.calendar, row.nextRunAt.value);
  }

  /** Every schedule's expression was parsed from a text. */
  lemma CronsHaveText(cfg: Config, trace: seq<State>, moments: seq<Moment>, i: nat, s: Id)
    requires Behaviour(cfg, trace, moments) && i <= |moments| && s in trace[i].db.schedules
    ensures CL.FromText(trace[i].db.schedules[s].cron)
  {
    hide Behaviour, RowsOf, LogsInv, ExclusiveInv, LiveInv, HistoryInv, ChainInv, ProposalsInv, RequestsInv,
        RefreshesInv, SlotsInv, CL.FromText;
    Ordered(cfg, trace, moments, i, i);
    assert ScheduleInv(cfg, trace[i].db.schedules[s], s, trace[i].db, ReadAt(moments, i));
  }

  lemma {:induction false} SameSize<T>(a: set<T>, b: set<T>)
    requires a <= b && |a| == |b|
    ensures a == b
  {
    if x :| x in b && x !in a {
      F.CardSubset(a, b - {x});
      assert false;
    }
  }

  function RunIds(occurrences: map<(Id, int), Occurrence>, slots: set<(Id, int)>): set<Id> {
    set k | k in slots && k in occurrences && occurrences[k].Admitted? :: occurrences[k].runId
  }

  lemma {:induction false} DistinctRunIds(occurrences: map<(Id, int), Occurrence>, slots: set<(Id, int)>)
    requires forall k | k in slots :: k in occurrences && occurrences[k].Admitted?
    requires forall k, l | k in slots && l in slots && k != l :: occurrences[k].runId != occurrences[l].runId
    ensures |RunIds(occurrences, slots)| == |slots|
    decreases slots
  {
    if slots == {} {
      assert RunIds(occurrences, slots) == {};
    } else {
      var k :| k in slots;
      DistinctRunIds(occurrences, slots - {k});
      assert RunIds(occurrences, slots) == RunIds(occurrences, slots - {k}) + {occurrences[k].runId};
    }
  }

  /** A slot that admitted run `r` of schedule `s`, read off the tables. */
  ghost predicate SlotOf(db: Db, cfg: Config, s: Id, r: Id, slot: int) {
    && s in db.schedules && r in db.runs && (s, slot) in db.occurrences && db.occurrences[(s, slot)] == Admitted(r)
    && CM.MinuteOf(db.schedules[s].cron, cfg.calendar, slot) && slot < db.schedules[s].endAt
    && slot <= db.runs[r].createdAt < slot + 60_000
  }

  /** Every run of a schedule was admitted for a minute of its own: a whole minute that fits the text
      of the schedule's expression, before the end and less than a minute old at admission. */
  lemma EachRunHasItsMinute(cfg: Config, trace: seq<State>, moments: seq<Moment>, i: nat, s: Id, r: Id)
    requires Behaviour(cfg, trace, moments) && i <= |moments| && s in trace[i].db.schedules
    requires r in ScheduledRuns(trace[i].db.runs, s)
    ensures exists slot :: SlotOf(trace[i].db, cfg, s, r, slot)
    ensures forall q, m | q in ScheduledRuns(trace[i].db.runs, s) && SlotOf(trace[i].db, cfg, s, r, m)
            && SlotOf(trace[i].db, cfg, s, q, m) :: q == r
  {
    hide Behaviour, Inv, C.Matches, CM.MinuteOf, CL.FromText;
    Ordered(cfg, trace, moments, i, i);
    CronsHaveText(cfg, trace, moments, i, s);
    AttemptsConserved(cfg, trace, moments, i, s);
    var db := trace[i].db;
    SlotsOf(db, cfg, ReadAt(moments, i));
    var slots := AdmittedSlots(db.occurrences, s);
    DistinctRunIds(db.occurrences, slots);
    forall q | q in RunIds(db.occurrences, slots) ensures q in ScheduledRuns(db.runs, s) {
      var k :| k in slots && db.occurrences[k].runId == q;
      assert SlotInv(cfg, db.schedules[k.0], k.0, k.1, db.occurrences[k], db.runs);
    }
    SameSize(RunIds(db.occurrences, slots), ScheduledRuns(db.runs, s));
    assert r in RunIds(db.occurrences, slots);
    var k :| k in slots && db.occurrences[k].runId == r;
    assert SlotInv(cfg, db.schedules[k.0], k.0, k.1, db.occurrences[k], db.runs);
    assert k == (s, k.1);
    CM.MinuteExactly(db.schedules[s].cron, cfg.calendar, k.1);
    assert SlotOf(db, cfg, s, r, k.1);
  }

  lemma SlotsOf(db: Db, cfg: Config, t: int)
    requires Inv(db, cfg, t)
    ensures SlotsInv(db, cfg, t)
  {
    hide RowsOf, LogsInv, ExclusiveInv, LiveInv, HistoryInv, ChainInv, ProposalsInv, RequestsInv, RefreshesInv,
        SlotsInv;
  }

  // ---------------------------------------------------------------- events

  /** A run's stored events are exactly 1..lastSeq, end in its state, and are only appended to. */
  lemma LogsAreGapless(cfg: Config, trace: seq<State>, moments: seq<Moment>, i: nat, j: nat, r: Id)
    requires Behaviour(cfg, trace, moments) && i <= j <= |moments| && r in trace[i].db.runs
    ensures r in trace[i].db.events && r in trace[j].db.events && trace[i].db.events[r] <= trace[j].db.events[r]
    ensures Gapless(trace[i].db.events[r], trace[i].db.runs[r].lastSeq)
    ensures LastState(trace[i].db.events[r]) == Some(trace[i].db.runs[r].state)
  {
    hide Behaviour, Inv;
    Ordered(cfg, trace, moments, i, j);
    LogOf(trace[i].db, r, cfg, ReadAt(moments, i));
    hide RunsAdvance, WorkspacesAdvance, GrantsAdvance, ProposalsAdvance, InterfacesAdvance, SchedulesAdvance;
  }

  // ---------------------------------------------------------------- interfaces and proposals

  /** Revisions 1 to current all exist, each with the one before as parent, and the head is the last. */
  lemma RevisionsUnbroken(cfg: Config, trace: seq<State>, moments: seq<Moment>, i: nat, iid: Id)
    requires Behaviour(cfg, trace, moments) && i <= |moments| && iid in trace[i].db.interfaces
    ensures var db := trace[i].db;
            && var head := db.interfaces[iid];
            && head.revision >= 1
            && (forall n: nat | 1 <= n <= head.revision ::
                  (iid, n) in db.revisions
                      && db.revisions[(iid, n)].parent == (if n == 1 then None else Some((n - 1) as nat)))
            && (iid, head.revision) in db.revisions
            && db.revisions[(iid, head.revision)].title == head.title
               && db.revisions[(iid, head.revision)].spec == head.spec
  {
    hide Behaviour, RowsOf, LogsInv, ExclusiveInv, LiveInv, HistoryInv, ProposalsInv, RequestsInv, RefreshesInv,
        SchedulesInv;
    Ordered(cfg, trace, moments, i, i);
  }

  /** A stored revision is never rewritten, and an interface's revision never goes back. */
  lemma RevisionsImmutable(cfg: Config, trace: seq<State>, moments: seq<Moment>, i: nat, j: nat, iid: Id, n: nat)
    requires Behaviour(cfg, trace, moments) && i <= j <= |moments| && (iid, n) in trace[i].db.revisions
    ensures (iid, n) in trace[j].db.revisions && trace[j].db.revisions[(iid, n)] == trace[i].db.revisions[(iid, n)]
    ensures iid in trace[i].db.interfaces && iid in trace[j].db.interfaces
    ensures trace[i].db.interfaces[iid].revision <= trace[j].db.interfaces[iid].revision
  {
    hide Behaviour, RowsOf, LogsInv, ExclusiveInv, LiveInv, HistoryInv, ProposalsInv, RequestsInv, RefreshesInv,
        SchedulesInv;
    Ordered(cfg, trace, moments, i, j);
    assert InterfaceAdvances(trace[i].db.interfaces[iid], trace[j].db.interfaces[iid]);
  }

  /** Step `k` is the one after which run `r` has succeeded. */
  ghost predicate SucceedsAt(trace: seq<State>, k: nat, r: Id) {
    && k + 1 < |trace| && r in trace[k].db.runs && r in trace[k + 1].db.runs
    && !trace[k].db.runs[r].state.Succeeded? && trace[k + 1].db.runs[r].state.Succeeded?
  }

  lemma {:induction false} SucceededOnce(cfg: Config, trace: seq<State>, moments: seq<Moment>, i: nat, r: Id)
    requires Behaviour(cfg, trace, moments) && i <= |moments| && r in trace[i].db.runs
             && trace[i].db.runs[r].state.Succeeded?
    ensures exists k: nat :: k < i && SucceedsAt(trace, k, r)
    decreases i
  {
    hide Act, Permitted;
    if i > 0 {
      var m := moments[i - 1];
      assert trace[i - 1 + 1] == Act(trace[i - 1], EnvAt(cfg, m), m.action);
      if r in trace[i - 1].db.runs && trace[i - 1].db.runs[r].state.Succeeded? {
        SucceededOnce(cfg, trace, moments, i - 1, r);
      } else {
        StepSucceeds(trace[i - 1], EnvAt(cfg, m), m.action, r);
        assert SucceedsAt(trace, i - 1, r);
      }
    }
  }

  /** The schedule of run `r` has the version the run was admitted with. */
  ghost predicate AtItsVersion(db: Db, r: Id) {
    r in db.runs && db.runs[r].schedule.Some? ==>
      && var link := db.runs[r].schedule.value;
      link.scheduleId in db.schedules && db.schedules[link.scheduleId].version == link.version
  }

  lemma SucceedsAtItsVersion(cfg: Config, trace: seq<State>, moments: seq<Moment>, k: nat, r: Id)
    requires Behaviour(cfg, trace, moments) && k < |moments| && SucceedsAt(trace, k, r)
    ensures AtItsVersion(trace[k].db, r)
  {
    hide Act, Permitted, Complete;
    var m := moments[k];
    assert trace[k + 1] == Act(trace[k], EnvAt(cfg, m), m.action);
    StepSucceeds(trace[k], EnvAt(cfg, m), m.action, r);
    if trace[k].db.runs[r].schedule.Some? {
      RefreshMeans(trace[k].db, EnvAt(cfg, m), r, m.action.result, m.action.failure, m.action.newId);
    }
  }

  lemma VersionBetween(a: Db, b: Db, cfg: Config, r: Id, clock: int, now: int)
    requires Inv(a, cfg, clock) && Advances(a, b, now) && r in a.runs && r in b.runs && AtItsVersion(b, r)
    ensures AtItsVersion(a, r)
  {
    hide Inv, Advances;
    RunAndSchedules(a, b, r, now);
    if a.runs[r].schedule.Some? {
      LinkOf(a, cfg, clock, r);
      var sid := a.runs[r].schedule.value.scheduleId;
      assert ScheduleAdvances(a.schedules[sid], b.schedules[sid], now);
    }
  }

  lemma RunAndSchedules(a: Db, b: Db, r: Id, now: int)
    requires Advances(a, b, now) && r in a.runs && r in b.runs
    ensures b.runs[r].schedule == a.runs[r].schedule && SchedulesAdvance(a.schedules, b.schedules, now)
  {
    hide LogsAdvance, WorkspacesAdvance, GrantsAdvance, ProposalsAdvance, InterfacesAdvance, SchedulesAdvance, Kept;
    assert RunAdvances(a.runs[r], b.runs[r]);
  }

  lemma LinkOf(db: Db, cfg: Config, clock: int, r: Id)
    requires Inv(db, cfg, clock) && r in db.runs && db.runs[r].schedule.Some?
    ensures var link := db.runs[r].schedule.value;
            link.scheduleId in db.schedules && link.version <= db.schedules[link.scheduleId].version
  {
    hide RowsOf, LogsInv, ExclusiveInv, LiveInv, HistoryInv, ChainInv, ProposalsInv, RequestsInv, RefreshesInv,
        CountInv, DueInv, SlotsInv;
    var sid := db.runs[r].schedule.value.scheduleId;
    assert ScheduleInv(cfg, db.schedules[sid], sid, db, clock);
    assert r in ScheduledRuns(db.runs, sid);
  }

  /** From its admission to its success a run's schedule had the version captured at admission. */
  lemma VersionHeld(cfg: Config, trace: seq<State>, moments: seq<Moment>, k: nat, m: nat, r: Id)
    requires Behaviour(cfg, trace, moments) && m <= k < |moments| && SucceedsAt(trace, k, r) && r in trace[m].db.runs
    ensures AtItsVersion(trace[m].db, r)
  {
    SucceedsAtItsVersion(cfg, trace, moments, k, r);
    hide Behaviour, AtItsVersion;
    Ordered(cfg, trace, moments, m, k);
    VersionBetween(trace[m].db, trace[k].db, cfg, r, ReadAt(moments, m), ReadAt(moments, m));
  }

  /** A scheduled run that succeeded published exactly one revision, the one after its target at
      admission, and did so at a step up to which its schedule had the version captured at
      admission; one that has not succeeded published none. */
  lemma RefreshesPublishOnce(cfg: Config, trace: seq<State>, moments: seq<Moment>, i: nat, r: Id)
    requires Behaviour(cfg, trace, moments) && i <= |moments| && r in trace[i].db.runs
             && trace[i].db.runs[r].schedule.Some?
    ensures var db := trace[i].db;
            && var link := db.runs[r].schedule.value;
            && link.scheduleId in db.schedules && r in db.events
            && var iid := db.schedules[link.scheduleId].interfaceId;
            if db.runs[r].state.Succeeded?
            then Updates(db.events[r]) == [InterfaceUpdated(iid, link.targetRevision + 1)]
                && (iid, link.targetRevision + 1) in db.revisions
            else Updates(db.events[r]) == []
    ensures trace[i].db.runs[r].state.Succeeded? ==>
              exists k: nat :: k < i && SucceedsAt(trace, k, r) && forall m: nat | m <= k && r in trace[m].db.runs ::
                  AtItsVersion(trace[m].db, r)
  {
    if trace[i].db.runs[r].state.Succeeded? {
      SucceededOnce(cfg, trace, moments, i, r);
      var k: nat :| k < i && SucceedsAt(trace, k, r);
      forall m: nat | m <= k && r in trace[m].db.runs ensures AtItsVersion(trace[m].db, r) {
        VersionHeld(cfg, trace, moments, k, m, r);
      }
    }
    PublishesOnce(cfg, trace, moments, i, r);
    hide Behaviour, Updates, AtItsVersion, SucceedsAt;
  }

  lemma PublishesOnce(cfg: Config, trace: seq<State>, moments: seq<Moment>, i: nat, r: Id)
    requires Behaviour(cfg, trace, moments) && i <= |moments| && r in trace[i].db.runs
             && trace[i].db.runs[r].schedule.Some?
    ensures var db := trace[i].db;
            && var link := db.runs[r].schedule.value;
            && link.scheduleId in db.schedules && r in db.events
            && var iid := db.schedules[link.scheduleId].interfaceId;
            if db.runs[r].state.Succeeded?
            then Updates(db.events[r]) == [InterfaceUpdated(iid, link.targetRevision + 1)]
                && (iid, link.targetRevision + 1) in db.revisions
            else Updates(db.events[r]) == []
  {
    hide Behaviour, RowsOf, ExclusiveInv, LiveInv, HistoryInv, ChainInv, ProposalsInv, RequestsInv, SchedulesInv,
        Updates;
    Ordered(cfg, trace, moments, i, i);
    assert r in trace[i].db.events by { LogOf(trace[i].db, r, cfg, ReadAt(moments, i)); }
    assert RefreshInv(trace[i].db.runs[r], trace[i].db.events[r], trace[i].db);
  }

  /** A pending proposal of a run belongs to work that may still publish it. */
  lemma PendingHasItsRun(cfg: Config, trace: seq<State>, moments: seq<Moment>, i: nat, p: Id)
    requires Behaviour(cfg, trace, moments) && i <= |moments| && p in trace[i].db.proposals
    requires trace[i].db.proposals[p].state.Pending? && trace[i].db.proposals[p].source.Some?
    ensures var db := trace[i].db;
            && db.proposals[p].source.value in db.runs
            && var run := db.runs[db.proposals[p].source.value];
            Working(run.state) || (run.schedule.None? && run.state.Succeeded?)
  {
    hide Behaviour, RowsOf, LogsInv, ExclusiveInv, LiveInv, HistoryInv, ChainInv, RequestsInv, RefreshesInv,
        SchedulesInv;
    Ordered(cfg, trace, moments, i, i);
    assert ProposalInv(trace[i].db.proposals[p], trace[i].db.runs, trace[i].db.schedules);
  }

  lemma Lengths(cfg: Config, trace: seq<State>, moments: seq<Moment>)
    requires Behaviour(cfg, trace, moments)
    ensures |trace| == |moments| + 1
  {
    hide Act, Permitted;
  }

  /** Step `i` publishes proposal `p`. */
  ghost predicate PublishedAt(trace: seq<State>, i: nat, p: Id) {
    && i + 1 < |trace| && p in trace[i].db.proposals && p in trace[i + 1].db.proposals
    && trace[i].db.proposals[p].state.Pending? && trace[i + 1].db.proposals[p].state.Published?
  }

  lemma NotRepublished(cfg: Config, trace: seq<State>, moments: seq<Moment>, i: nat, j: nat, p: Id)
    requires Behaviour(cfg, trace, moments) && PublishedAt(trace, i, p) && i < j <= |moments|
    ensures p in trace[j].db.proposals && !trace[j].db.proposals[p].state.Pending?
  {
    hide Behaviour, Inv, Advances;
    Lengths(cfg, trace, moments);
    Ordered(cfg, trace, moments, i + 1, j);
    ProposalOf(trace[i + 1].db, trace[j].db, p, ReadAt(moments, i + 1));
  }

  lemma ProposalOf(a: Db, b: Db, p: Id, now: int)
    requires Advances(a, b, now) && p in a.proposals
    ensures p in b.proposals && ProposalAdvances(a.proposals[p], b.proposals[p])
  {
    hide RunsAdvance, LogsAdvance, WorkspacesAdvance, GrantsAdvance, InterfacesAdvance, SchedulesAdvance, Kept;
  }

  /** Over the whole run of the system a proposal is published at most once. */
  lemma PublishedAtMostOnce(cfg: Config, trace: seq<State>, moments: seq<Moment>, i: nat, j: nat, p: Id)
    requires Behaviour(cfg, trace, moments) && PublishedAt(trace, i, p) && PublishedAt(trace, j, p)
    ensures i == j
  {
    hide Behaviour;
    Lengths(cfg, trace, moments);
    if i < j {
      NotRepublished(cfg, trace, moments, i, j, p);
    } else if j < i {
      NotRepublished(cfg, trace, moments, j, i, p);
    }
  }

  // ---------------------------------------------------------------- idempotent requests

  lemma {:induction false} ReceiptsKept(cfg: Config, trace: seq<State>, moments: seq<Moment>, i: nat, j: nat,
                                        k: (Route, Id))
    requires Behaviour(cfg, trace, moments) && i <= j <= |moments| && k in trace[i].mutations
    ensures k in trace[j].mutations && trace[j].mutations[k] == trace[i].mutations[k]
    decreases j
  {
    hide Permitted, Act;
    if i < j {
      ReceiptsKept(cfg, trace, moments, i, j - 1, k);
      var m := moments[j - 1];
      assert trace[j - 1 + 1] == Act(trace[j - 1], EnvAt(cfg, m), m.action);
      ReceiptsStay(trace[j - 1], EnvAt(cfg, m), m.action, k);
    }
  }

  lemma ReceiptsStay(st: State, env: Env, action: Action, k: (Route, Id))
    requires k in st.mutations
    ensures k in Act(st, env, action).mutations && Act(st, env, action).mutations[k] == st.mutations[k]
  {
    hide Dispatch, Delta, ReserveModelRequest, CallTool, Finish, StartFrom, Tick, Recover, FenceModelConfiguration;
  }

  /** A request answered once is answered the same way ever after and changes nothing again; the
      same key with another body is refused. */
  lemma RepliesAreIdempotent(cfg: Config, trace: seq<State>, moments: seq<Moment>, i: nat, j: nat, env: Env, body: Body,
                             newId: Id)
    requires Behaviour(cfg, trace, moments) && i < j <= |moments| && moments[i].action.Request?
    requires var a := moments[i].action; Post(trace[i], EnvAt(cfg, moments[i]), a.route, a.key, a.body, a.newId).1.Ok?
    ensures var a := moments[i].action;
            var first := Post(trace[i], EnvAt(cfg, moments[i]), a.route, a.key, a.body, a.newId).1;
            && Post(trace[j], env, a.route, a.key, a.body, newId) == (trace[j], first)
            && (body != a.body ==>
                Post(trace[j], env, a.route, a.key, body, newId) == (trace[j], Err(IdempotencyConflict)))
  {
    hide Permitted, Dispatch;
    var a := moments[i].action;
    assert trace[i + 1] == Act(trace[i], EnvAt(cfg, moments[i]), a);
    var k := (a.route, a.key);
    assert k in trace[i + 1].mutations && trace[i + 1].mutations[k].body == a.body;
    ReceiptsKept(cfg, trace, moments, i + 1, j, k);
  }
}
