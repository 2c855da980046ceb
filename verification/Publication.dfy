/** Proposing, publishing, renaming and rolling back keep the joint invariant; publication is a
    compare-and-swap on the interface's head. */
module Publication {
  import opened Wrappers
  import opened Engine
  import opened Invariant
  import opened Frames
  import opened RunSteps
  import opened Authority
  import H = History

  // ---------------------------------------------------------------- writing a revision

  /** The revision `row` becomes the head of interface `iid`. */
  ghost predicate Appends(interfaces: map<Id, Interface>, iid: Id, head: Interface, row: Revision) {
    && head.revision == (if iid in interfaces then interfaces[iid].revision + 1 else 1)
    && row == Revision(head.title, head.spec, if iid in interfaces then Some(interfaces[iid].revision) else None)
  }

  lemma RevisionsGrow(interfaces: map<Id, Interface>, revisions: map<(Id, nat), Revision>, iid: Id, head: Interface,
                      row: Revision)
    requires ChainInv(interfaces, revisions) && Appends(interfaces, iid, head, row)
    ensures var heads, rows := interfaces[iid := head], revisions[(iid, head.revision) := row];
            forall i, n: nat | i in heads && 1 <= n <= heads[i].revision ::
              (i, n) in rows && rows[(i, n)].parent == (if n == 1 then None else Some((n - 1) as nat))
  {
    var heads, rows := interfaces[iid := head], revisions[(iid, head.revision) := row];
    forall i, n: nat | i in heads && 1 <= n <= heads[i].revision
      ensures (i, n) in rows && rows[(i, n)].parent == (if n == 1 then None else Some((n - 1) as nat))
    {
      if i != iid || n != head.revision { assert (i, n) in revisions; }
    }
  }

  lemma NewRevision(interfaces: map<Id, Interface>, revisions: map<(Id, nat), Revision>, iid: Id, head: Interface,
                    row: Revision)
    requires ChainInv(interfaces, revisions) && Appends(interfaces, iid, head, row)
    ensures (iid, head.revision) !in revisions
    ensures forall k | k in revisions :: k.0 in interfaces && 1 <= k.1 <= interfaces[k.0].revision
  {}

  lemma HeadsGrow(interfaces: map<Id, Interface>, revisions: map<(Id, nat), Revision>, iid: Id, head: Interface,
                  row: Revision)
    requires ChainInv(interfaces, revisions) && Appends(interfaces, iid, head, row)
    ensures var heads, rows := interfaces[iid := head], revisions[(iid, head.revision) := row];
            && (forall i | i in heads :: heads[i].revision >= 1)
            && (forall i | i in heads ::
                  && (i, heads[i].revision) in rows
                  && rows[(i, heads[i].revision)].title == heads[i].title
                     && rows[(i, heads[i].revision)].spec == heads[i].spec)
  {
    NewRevision(interfaces, revisions, iid, head, row);
    var heads := interfaces[iid := head];
    forall i | i in heads && i != iid ensures heads[i].revision >= 1 && (i, heads[i].revision) in revisions {}
  }

  lemma ChainGrows(interfaces: map<Id, Interface>, revisions: map<(Id, nat), Revision>, iid: Id, head: Interface,
                   row: Revision)
    requires ChainInv(interfaces, revisions) && Appends(interfaces, iid, head, row)
    ensures (iid, head.revision) !in revisions
    ensures ChainInv(interfaces[iid := head], revisions[(iid, head.revision) := row])
  {
    hide ChainInv;
    NewRevision(interfaces, revisions, iid, head, row);
    RevisionsGrow(interfaces, revisions, iid, head, row);
    HeadsGrow(interfaces, revisions, iid, head, row);
    var heads, rows := interfaces[iid := head], revisions[(iid, head.revision) := row];
    forall k | k in rows ensures k.0 in heads && 1 <= k.1 <= heads[k.0].revision {
      if k != (iid, head.revision) { assert k in revisions; }
    }
    IsChain(heads, rows);
  }

  lemma IsChain(interfaces: map<Id, Interface>, revisions: map<(Id, nat), Revision>)
    requires forall i | i in interfaces :: interfaces[i].revision >= 1
    requires forall i, n: nat | i in interfaces && 1 <= n <= interfaces[i].revision ::
               && (i, n) in revisions
               && revisions[(i, n)].parent == (if n == 1 then None else Some((n - 1) as nat))
    requires forall k | k in revisions :: k.0 in interfaces && 1 <= k.1 <= interfaces[k.0].revision
    requires forall i | i in interfaces ::
               && (i, interfaces[i].revision) in revisions
               && revisions[(i, interfaces[i].revision)].title == interfaces[i].title
               && revisions[(i, interfaces[i].revision)].spec == interfaces[i].spec
    ensures ChainInv(interfaces, revisions)
  {}

  lemma WrittenChain(db: Db, iid: Id, title: string, spec: string, provenance: Provenance)
    requires ChainInv(db.interfaces, db.revisions)
    ensures var b := WriteInterface(db, iid, title, spec, provenance);
            ChainInv(b.interfaces, b.revisions) && Kept(db.revisions, b.revisions)
  {
    var b := WriteInterface(db, iid, title, spec, provenance);
    assert iid in db.interfaces ==> db.interfaces[iid].revision >= 1;
    hide ChainInv;
    var parent := RevisionOf(db, iid);
    ChainGrows(db.interfaces, db.revisions, iid, b.interfaces[iid], b.revisions[(iid, parent + 1)]);
  }

  lemma WriteKeepsInv(db: Db, iid: Id, title: string, spec: string, provenance: Provenance, cfg: Config, clock: int)
    requires Inv(db, cfg, clock) && (iid in db.interfaces ==> !db.interfaces[iid].deleted)
    ensures Sound(db, WriteInterface(db, iid, title, spec, provenance), cfg, clock)
  {
    hide RowsOf, LogsInv, ExclusiveInv, LiveInv, HistoryInv, ChainInv, ProposalsInv, RequestsInv, RefreshesInv,
        SchedulesInv, Kept;
    var b := WriteInterface(db, iid, title, spec, provenance);
    WrittenChain(db, iid, title, spec, provenance);
    LiveGrows(db, b, cfg);
    InterfacesKeepInv(db, b, cfg, clock);
  }

  lemma RenameKeepsInv(db: Db, iid: Id, expected: nat, title: string, cfg: Config, clock: int)
    requires Inv(db, cfg, clock) && Rename(db, iid, expected, title).Ok?
    ensures Sound(db, Rename(db, iid, expected, title).value, cfg, clock)
  {
    hide Inv, Advances, WriteInterface;
    var current := db.interfaces[iid];
    WriteKeepsInv(db, iid, title, current.spec, current.provenance, cfg, clock);
  }

  lemma RollbackKeepsInv(db: Db, iid: Id, expected: nat, target: nat, cfg: Config, clock: int)
    requires Inv(db, cfg, clock) && Rollback(db, iid, expected, target).Ok?
    ensures Sound(db, Rollback(db, iid, expected, target).value, cfg, clock)
  {
    hide Inv, Advances, WriteInterface;
    var past := db.revisions[(iid, target)];
    WriteKeepsInv(db, iid, past.title, past.spec, db.interfaces[iid].provenance, cfg, clock);
  }

  // ---------------------------------------------------------------- proposing

  lemma FencedRun(db: Db, env: Env, run: Run)
    requires Fence(db, env, run).Pass?
    ensures Live(run.state) && WorkspaceLive(db.workspaces, run.input.workspaceId)
    ensures !run.state.Queued? ==> Working(run.state)
  {}

  lemma ProposalPlaced(db: Db, env: Env, v: ProposalInput, source: Option<Id>, pid: Id)
    requires ProposalsInv(db.proposals, db.runs, db.schedules) && pid !in db.proposals
    requires ProposalScope(db, env, v, source).Pass? && ProposalTarget(db, v, source).Pass?
    requires source.Some? && source.value in db.runs ==> !db.runs[source.value].state.Queued?
    ensures var b := AddProposal(db, v, source, pid);
            ProposalsAdvance(db.proposals, b.proposals) && ProposalsInv(b.proposals, b.runs, b.schedules)
  {
    var b := AddProposal(db, v, source, pid);
    if source.Some? { FencedRun(db, env, db.runs[source.value]); }
    hide Fence;
    forall p | p in b.proposals ensures ProposalInv(b.proposals[p], b.runs, b.schedules) {
      if p != pid { assert ProposalInv(db.proposals[p], db.runs, db.schedules); }
    }
  }

  lemma AddProposalKeepsInv(db: Db, env: Env, v: ProposalInput, source: Option<Id>, pid: Id)
    requires Inv(db, env.cfg, env.now) && pid !in db.proposals
    requires ProposalScope(db, env, v, source).Pass? && ProposalTarget(db, v, source).Pass?
    requires source.Some? && source.value in db.runs ==> !db.runs[source.value].state.Queued?
    ensures Sound(db, AddProposal(db, v, source, pid), env.cfg, env.now)
  {
    hide RowsOf, LogsInv, ExclusiveInv, LiveInv, HistoryInv, ChainInv, ProposalsInv, RequestsInv, RefreshesInv,
        SchedulesInv;
    hide ProposalScope, ProposalTarget, ProposalsAdvance;
    ProposalPlaced(db, env, v, source, pid);
    ProposalsKeepInv(db, AddProposal(db, v, source, pid), env.cfg, env.now);
  }

  lemma ProposeKeepsInv(db: Db, env: Env, v: ProposalInput, source: Option<Id>, pid: Id)
    requires Inv(db, env.cfg, env.now) && Unused(db, pid) && Propose(db, env, v, source, pid).Ok?
    requires source.Some? && source.value in db.runs ==> !db.runs[source.value].state.Queued?
    ensures Sound(db, Propose(db, env, v, source, pid).value, env.cfg, env.now)
  {
    hide Inv, Advances, H.ValidImport, TouchWorkspace, ProposalScope, ProposalTarget, Emit;
    Empty();
    TouchKeepsInv(db, v.workspaceId, [], false, env.cfg, env.now);
    var touched := TouchWorkspace(db, v.workspaceId, [], false).value;
    AddProposalKeepsInv(touched, env, v, source, pid);
    var added := AddProposal(touched, v, source, pid);
    Then(db, touched, added, env.cfg, env.now);
    if source.Some? && source.value in added.runs {
      EmitKeepsInv(added, source.value, InterfaceProposed(pid), env.cfg, env.now);
      Then(db, added, Emit(added, source.value, InterfaceProposed(pid)), env.cfg, env.now);
    }
  }

  // ---------------------------------------------------------------- publishing

  /** The tables of a publication before its event. */
  function Marked(db: Db, pid: Id, newId: Id): Db
    requires pid in db.proposals
  {
    var p := db.proposals[pid];
    var iid := if p.interfaceId.Some? then p.interfaceId.value else newId;
    var synthetic := p.source.Some? && p.source.value in db.runs && db.runs[p.source.value].input.grantRefs != [];
    var written := WriteInterface(db, iid, p.title, p.spec, Provenance(synthetic, p.source));
    written.(proposals := written.proposals[pid := p.(state := Published, interfaceId := Some(iid))])
  }

  lemma PublishedOnce(db: Db, pid: Id, next: Proposal)
    requires pid in db.proposals && db.proposals[pid].state.Pending?
             && ProposalsInv(db.proposals, db.runs, db.schedules)
    requires next == db.proposals[pid].(state := Published, interfaceId := next.interfaceId)
    requires db.proposals[pid].interfaceId.Some? ==> next.interfaceId == db.proposals[pid].interfaceId
    ensures ProposalsAdvance(db.proposals, db.proposals[pid := next])
    ensures ProposalsInv(db.proposals[pid := next], db.runs, db.schedules)
  {
    var after := db.proposals[pid := next];
    forall p | p in after ensures ProposalInv(after[p], db.runs, db.schedules) {
      assert ProposalInv(db.proposals[p], db.runs, db.schedules);
    }
  }

  lemma MarkKeepsInv(db: Db, pid: Id, newId: Id, cfg: Config, clock: int)
    requires Inv(db, cfg, clock) && newId !in db.interfaces && pid in db.proposals && db.proposals[pid].state.Pending?
    requires db.proposals[pid].interfaceId.Some? ==> InterfaceLive(db.interfaces, db.proposals[pid].interfaceId.value)
    ensures Sound(db, Marked(db, pid, newId), cfg, clock)
  {
    hide RowsOf, LogsInv, ExclusiveInv, LiveInv, HistoryInv, ChainInv, ProposalsInv, RequestsInv, RefreshesInv,
        SchedulesInv;
    hide ProposalsAdvance, Kept;
    var p := db.proposals[pid];
    var b := Marked(db, pid, newId);
    var next := b.proposals[pid];
    PublishedOnce(db, pid, next);
    var marked := db.(proposals := db.proposals[pid := next]);
    ProposalsKeepInv(db, marked, cfg, clock);
    WriteKeepsInv(marked, next.interfaceId.value, p.title, p.spec, b.interfaces[next.interfaceId.value].provenance, cfg,
                  clock);
    Then(db, marked, b, cfg, clock);
  }

  /** What a successful publication found and left. */
  lemma PublishMeans(db: Db, env: Env, pid: Id, expected: nat, scheduled: bool, newId: Id)
    requires Publish(db, env, pid, expected, scheduled, newId).Ok?
    ensures pid in db.proposals && db.proposals[pid].state.Pending? && db.proposals[pid].expectedRevision == expected
    ensures PublishSource(db, env, db.proposals[pid], scheduled).Pass?
    ensures var p := db.proposals[pid];
            && (p.interfaceId.Some? ==>
                  && InterfaceLive(db.interfaces, p.interfaceId.value)
                  && db.interfaces[p.interfaceId.value].revision == expected)
            && (p.interfaceId.None? ==> expected == 0)
    ensures var p := db.proposals[pid];
            var (b, iid) := Publish(db, env, pid, expected, scheduled, newId).value;
            && iid == (if p.interfaceId.Some? then p.interfaceId.value else newId)
            && b == (if p.source.Some? && p.source.value in db.runs
                     then Emit(Marked(db, pid, newId), p.source.value, InterfaceUpdated(iid, expected + 1))
                     else Marked(db, pid, newId))
  {
    hide PublishSource, WriteInterface, Emit;
    assert Marked(db, pid, newId).runs == db.runs by { MarkedElsewhere(db, pid, newId); }
  }

  lemma MarkedElsewhere(db: Db, pid: Id, newId: Id)
    requires pid in db.proposals
    ensures var b := Marked(db, pid, newId);
            b == db.(interfaces := b.interfaces, revisions := b.revisions, proposals := b.proposals)
  {}

  lemma PublishKeepsInv(db: Db, env: Env, pid: Id, expected: nat, newId: Id)
    requires Inv(db, env.cfg, env.now) && Unused(db, newId) && Publish(db, env, pid, expected, false, newId).Ok?
    ensures Sound(db, Publish(db, env, pid, expected, false, newId).value.0, env.cfg, env.now)
  {
    hide Inv, Advances, Publish, Marked, Emit;
    PublishMeans(db, env, pid, expected, false, newId);
    var p := db.proposals[pid];
    var iid := Publish(db, env, pid, expected, false, newId).value.1;
    MarkKeepsInv(db, pid, newId, env.cfg, env.now);
    MarkedElsewhere(db, pid, newId);
    var marked := Marked(db, pid, newId);
    if p.source.Some? && p.source.value in db.runs {
      var kind := InterfaceUpdated(iid, expected + 1);
      EmitKeepsInv(marked, p.source.value, kind, env.cfg, env.now);
      Then(db, marked, Emit(marked, p.source.value, kind), env.cfg, env.now);
    }
  }
}
