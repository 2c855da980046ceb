/** When each operation of the engine goes through, said of the tables and the clock alone: who may
    still act, and what every call asks for. */
module Verdicts {
  import opened Wrappers
  import opened Engine
  import H = History

  // ---------------------------------------------------------------- what must stand

  ghost predicate WorkspaceStands(db: Db, wid: Id) { wid in db.workspaces && !db.workspaces[wid].deleted }

  ghost predicate InterfaceStands(db: Db, iid: Id) { iid in db.interfaces && !db.interfaces[iid].deleted }

  /** A grant that still allows this model, workspace and device what it did when it was referred to. */
  ghost predicate GrantStands(db: Db, env: Env, wid: Id, model: Id, ref: GrantRef) {
    && ref.id in db.grants
    && var g := db.grants[ref.id];
    && g.workspaceId == wid && g.modelId == model && g.deviceId == env.cfg.device
    && g.generation == ref.generation && !g.revoked && env.now < g.expiresAt && g.synthetic
  }

  ghost predicate GrantsStand(db: Db, env: Env, wid: Id, model: Id, refs: seq<GrantRef>) {
    forall i | 0 <= i < |refs| :: GrantStands(db, env, wid, model, refs[i])
  }

  ghost predicate InterfacesStand(db: Db, iids: seq<Id>) { forall i | 0 <= i < |iids| :: InterfaceStands(db, iids[i]) }

  /** The schedule is as it was at the run's admission, and its time is not over. */
  ghost predicate LinkStands(db: Db, env: Env, link: ScheduleLink) {
    && link.scheduleId in db.schedules
    && var s := db.schedules[link.scheduleId];
    && !s.deleted && s.state != Paused && s.version == link.version && env.now < s.endAt
  }

  /** Not over, not being stopped, within its time, and with everything it was admitted with. */
  ghost predicate MayAct(db: Db, env: Env, run: Run) {
    && (run.state == Queued || run.state == Running || run.state == WaitingForDevice)
    && WorkspaceStands(db, run.input.workspaceId)
    && run.input.modelId in env.models
    && env.now < run.deadline
    && GrantsStand(db, env, run.input.workspaceId, run.input.modelId, run.input.grantRefs)
    && InterfacesStand(db, run.input.interfaceIds)
    && (run.schedule.Some? ==> LinkStands(db, env, run.schedule.value))
  }

  lemma {:induction false} GrantsExactly(db: Db, env: Env, wid: Id, model: Id, refs: seq<GrantRef>)
    ensures CheckGrants(db, env, wid, model, refs).Pass? <==> GrantsStand(db, env, wid, model, refs)
    decreases |refs|
  {
    if refs != [] {
      GrantsExactly(db, env, wid, model, refs[1..]);
      hide GrantsStand;
      GrantsSplit(db, env, wid, model, refs);
    }
  }

  lemma GrantsSplit(db: Db, env: Env, wid: Id, model: Id, refs: seq<GrantRef>)
    requires refs != []
    ensures GrantsStand(db, env, wid, model, refs) <==>
            GrantStands(db, env, wid, model, refs[0]) && GrantsStand(db, env, wid, model, refs[1..])
  {
    hide GrantStands;
    assert forall i | 1 <= i < |refs| :: refs[i] == refs[1..][i - 1];
  }

  lemma {:induction false} InterfacesExactly(db: Db, iids: seq<Id>)
    ensures CheckInterfaces(db, iids).Pass? <==> InterfacesStand(db, iids)
    decreases |iids|
  {
    if iids != [] {
      InterfacesExactly(db, iids[1..]);
      assert forall i | 1 <= i < |iids| :: iids[i] == iids[1..][i - 1];
    }
  }

  /** A run passes the fence exactly when it may act. */
  lemma FenceExactly(db: Db, env: Env, run: Run)
    ensures Fence(db, env, run).Pass? <==> MayAct(db, env, run)
  {
    GrantsExactly(db, env, run.input.workspaceId, run.input.modelId, run.input.grantRefs);
    InterfacesExactly(db, run.input.interfaceIds);
    hide GrantsStand, InterfacesStand, CheckGrants, CheckInterfaces;
  }

  // ---------------------------------------------------------------- why a run may not act

  /** The position of the first reference that does not stand. */
  ghost function FirstFallen(db: Db, env: Env, wid: Id, model: Id, refs: seq<GrantRef>): (i: nat)
    ensures i <= |refs| && (i < |refs| ==> !GrantStands(db, env, wid, model, refs[i]))
    ensures forall j | 0 <= j < i :: GrantStands(db, env, wid, model, refs[j])
  {
    if refs == [] || !GrantStands(db, env, wid, model, refs[0]) then 0
    else
      var i := FirstFallen(db, env, wid, model, refs[1..]);
      assert forall j | 1 <= j < |refs| :: refs[j] == refs[1..][j - 1];
      1 + i
  }

  ghost function FirstGone(db: Db, iids: seq<Id>): (i: nat)
    ensures i <= |iids| && (i < |iids| ==> !InterfaceStands(db, iids[i]))
    ensures forall j | 0 <= j < i :: InterfaceStands(db, iids[j])
  {
    if iids == [] || !InterfaceStands(db, iids[0]) then 0
    else
      var i := FirstGone(db, iids[1..]);
      assert forall j | 1 <= j < |iids| :: iids[j] == iids[1..][j - 1];
      1 + i
  }

  lemma {:induction false} GrantsCode(db: Db, env: Env, wid: Id, model: Id, refs: seq<GrantRef>)
    requires !GrantsStand(db, env, wid, model, refs)
    ensures var i := FirstFallen(db, env, wid, model, refs);
            && i < |refs|
            && CheckGrants(db, env, wid, model, refs) == Fail(if refs[i].id in db.grants then GrantDenied else NotFound)
    decreases |refs|
  {
    if GrantStands(db, env, wid, model, refs[0]) {
      GrantsSplit(db, env, wid, model, refs);
      GrantsCode(db, env, wid, model, refs[1..]);
    }
  }

  lemma {:induction false} InterfacesCode(db: Db, iids: seq<Id>)
    requires !InterfacesStand(db, iids)
    ensures var i := FirstGone(db, iids);
            i < |iids| && CheckInterfaces(db, iids) == Fail(if iids[i] in db.interfaces then Tombstoned else NotFound)
    decreases |iids|
  {
    if InterfaceStands(db, iids[0]) {
      assert forall j | 1 <= j < |iids| :: iids[j] == iids[1..][j - 1];
      InterfacesCode(db, iids[1..]);
    }
  }

  /** The first thing that keeps a run from acting, in the order in which the source looks. */
  ghost function WhyNot(db: Db, env: Env, run: Run): Code
    requires !MayAct(db, env, run)
  {
    var wid := run.input.workspaceId;
    if run.state != Queued && run.state != Running && run.state != WaitingForDevice then RunInactive
    else if wid !in db.workspaces then NotFound
    else if db.workspaces[wid].deleted then Tombstoned
    else if run.input.modelId !in env.models then ModelUnavailable
    else if run.deadline <= env.now then DeadlineExceeded
    else if !GrantsStand(db, env, wid, run.input.modelId, run.input.grantRefs) then
      var ref := run.input.grantRefs[FirstFallen(db, env, wid, run.input.modelId, run.input.grantRefs)];
      if ref.id in db.grants then GrantDenied else NotFound
    else if !InterfacesStand(db, run.input.interfaceIds) then
      if run.input.interfaceIds[FirstGone(db, run.input.interfaceIds)] in db.interfaces then Tombstoned else NotFound
    else if run.schedule.value.scheduleId !in db.schedules then NotFound
    else if db.schedules[run.schedule.value.scheduleId].deleted then Tombstoned
    else ScheduleFenced
  }

  lemma FenceCode(db: Db, env: Env, run: Run)
    requires !MayAct(db, env, run)
    ensures Fence(db, env, run) == Fail(WhyNot(db, env, run))
  {
    var wid, model, refs := run.input.workspaceId, run.input.modelId, run.input.grantRefs;
    GrantsExactly(db, env, wid, model, refs);
    InterfacesExactly(db, run.input.interfaceIds);
    if !GrantsStand(db, env, wid, model, refs) { GrantsCode(db, env, wid, model, refs); }
    if !InterfacesStand(db, run.input.interfaceIds) { InterfacesCode(db, run.input.interfaceIds); }
    hide GrantsStand, InterfacesStand, CheckGrants, CheckInterfaces, FirstFallen, FirstGone;
  }

  // ---------------------------------------------------------------- what is written

  function Numbered(n: nat, kinds: seq<EventKind>): seq<Event> {
    seq(|kinds|, (i: nat) requires i < |kinds| => Event(n + 1 + i, kinds[i]))
  }

  /** The row of a run, and events under the next numbers at the end of its log. */
  function Told(db: Db, rid: Id, run: Run, kinds: seq<EventKind>): Db {
    db.(runs := db.runs[rid := run.(lastSeq := run.lastSeq + |kinds|)],
        events := db.events[rid := (if rid in db.events then db.events[rid] else []) + Numbered(run.lastSeq, kinds)])
  }

  /** Telling changes the row and the log of that run only. */
  lemma ToldElsewhere(db: Db, rid: Id, run: Run, kinds: seq<EventKind>)
    ensures var b := Told(db, rid, run, kinds);
            && b == db.(runs := b.runs, events := b.events)
            && b.runs.Keys == db.runs.Keys + {rid} && b.runs[rid] == run.(lastSeq := run.lastSeq + |kinds|)
            && forall r | r in db.runs && r != rid :: b.runs[r] == db.runs[r]
  {
    hide Numbered;
  }

  lemma EmitTells(db: Db, rid: Id, kind: EventKind)
    requires rid in db.runs
    ensures Emit(db, rid, kind) == Told(db, rid, db.runs[rid], [kind])
  {
    assert Numbered(db.runs[rid].lastSeq, [kind]) == [Event(db.runs[rid].lastSeq + 1, kind)];
  }

  lemma MoveTells(db: Db, rid: Id, state: RunState, reason: Option<Reason>)
    requires rid in db.runs
    ensures Move(db, rid, state, reason) ==
            Told(db, rid, db.runs[rid].(state := state, reason := reason), [StateChanged(state, reason)])
  {
    var run := db.runs[rid].(state := state, reason := reason);
    EmitTells(PutRun(db, rid, run), rid, StateChanged(state, reason));
    assert db.runs[rid := run][rid := run.(lastSeq := run.lastSeq + 1)] ==
           db.runs[rid := run.(lastSeq := run.lastSeq + 1)];
  }

  /** Telling twice is telling at once. */
  lemma ToldTwice(db: Db, rid: Id, run: Run, next: Run, first: seq<EventKind>, more: seq<EventKind>)
    requires next.lastSeq == run.lastSeq + |first|
    ensures Told(Told(db, rid, run, first), rid, next, more) ==
            Told(db, rid, next.(lastSeq := run.lastSeq), first + more)
  {
    var a, b := Told(Told(db, rid, run, first), rid, next, more),
        Told(db, rid, next.(lastSeq := run.lastSeq), first + more);
    assert Numbered(run.lastSeq, first) + Numbered(next.lastSeq, more) == Numbered(run.lastSeq, first + more);
    assert a.runs == b.runs;
    assert a.events[rid] == b.events[rid];
    assert a.events == b.events;
  }

  /** An event and then a change of state. */
  lemma EmitMoveTells(db: Db, rid: Id, kind: EventKind, state: RunState, reason: Option<Reason>)
    requires rid in db.runs
    ensures rid in Emit(db, rid, kind).runs
    ensures Move(Emit(db, rid, kind), rid, state, reason) ==
            Told(db, rid, db.runs[rid].(state := state, reason := reason), [kind, StateChanged(state, reason)])
  {
    var run := db.runs[rid];
    EmitTells(db, rid, kind);
    MoveTells(Emit(db, rid, kind), rid, state, reason);
    ToldTwice(db, rid, run, run.(lastSeq := run.lastSeq + 1, state := state, reason := reason), [kind],
              [StateChanged(state, reason)]);
    assert [kind] + [StateChanged(state, reason)] == [kind, StateChanged(state, reason)];
    hide Emit, Move, Numbered;
  }
}
