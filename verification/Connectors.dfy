/** Connections whose one logical write spans two stores: rows in a database and secrets in the
    keychain. Every storage call may fail, and the process may stop after any of them. */
module Connectors {
  import opened Wrappers

  /** UUIDs, and OAuth tokens as opaque values. */
  type Id = nat

  const MAX_SCOPES := 8
  const ALLOWED_SCOPES: seq<string> := [
    "https://www.googleapis.com/auth/gmail.metadata",
    "https://www.googleapis.com/auth/gmail.readonly",
    "https://www.googleapis.com/auth/calendar.readonly"]

  datatype Row = Row(scopes: seq<string>, expiresAt: int, connected: bool)

  datatype Secret = Secret(access: nat, refresh: Option<nat>)

  /** What survives a crash. */
  datatype Disk = Disk(rows: map<Id, Row>, secrets: map<Id, Secret>)

  datatype Phase = Pending | Exchanging | Connected | Cancelled | Failed

  datatype Attempt = Attempt(id: Id, deadline: int)

  datatype Life = Life(pending: Option<Attempt>, status: Option<(Id, Phase)>, refreshes: map<Id, Id>)

  datatype World = World(disk: Disk, life: Life, issued: set<Id>)

  const START := World(Disk(map[], map[]), Life(None, None, map[]), {})

  datatype Error = Stale | Busy | NotFound | Scope | Storage | Credential | Cleanup | Unconfirmed

  datatype Tokens = Tokens(access: nat, refresh: Option<nat>, scope: Option<seq<string>>, expiresAt: int)

  /** The world a call leaves, every disk on the way, and its answer. */
  datatype Step = Step(next: World, disks: seq<Disk>, result: Result<(), Error>)

  /** Which of a call's storage operations succeed; a failed one has no effect. */
  type Faults = nat -> bool

  // ---------------------------------------------------------------- storage

  function PutRow(d: Disk, id: Id, row: Row): Disk { d.(rows := d.rows[id := row]) }

  function PutSecret(d: Disk, id: Id, secret: Secret): Disk { d.(secrets := d.secrets[id := secret]) }

  function DropSecret(d: Disk, id: Id): Disk { d.(secrets := d.secrets - {id}) }

  function DropRow(d: Disk, id: Id): Disk { d.(rows := d.rows - {id}) }

  function MarkRow(d: Disk, id: Id): Disk {
    if id in d.rows then PutRow(d, id, d.rows[id].(connected := false)) else d
  }

  predicate IsConnected(d: Disk, id: Id) { id in d.rows && d.rows[id].connected }

  // ---------------------------------------------------------------- attempts

  predicate ValidScopes(scopes: seq<string>) {
    && 0 < |scopes| <= MAX_SCOPES
    && (forall i | 0 <= i < |scopes| :: scopes[i] in ALLOWED_SCOPES)
    && (forall i, j | 0 <= i < j < |scopes| :: scopes[i] != scopes[j])
  }

  predicate Within(scopes: seq<string>, requested: seq<string>) { forall s | s in scopes :: s in requested }

  /** The grant the provider confirmed: never more than asked for, and assumed unchanged only on a
      refresh that does not mention it. */
  function Granted(scope: Option<seq<string>>, requested: seq<string>, refresh: bool): Option<seq<string>> {
    var scopes := if scope.Some? then scope.value else requested;
    if scope.None? && !refresh then None
    else if !ValidScopes(scopes) || !Within(scopes, requested) then None
    else Some(scopes)
  }

  function Terminal(life: Life, phase: Phase): Life {
    life.(pending := None, status := if life.status.Some? then Some((life.status.value.0, phase)) else None)
  }

  function Expire(life: Life, now: int): Life {
    if life.pending.Some? && now >= life.pending.value.deadline then Terminal(life, Failed) else life
  }

  predicate Holds(life: Life, attempt: Id) { life.pending.Some? && life.pending.value.id == attempt }

  function BeginAttempt(w: World, id: Id, now: int, timeout: nat): Step {
    var life := Expire(w.life, now);
    if life.pending.Some? then Step(w.(life := life), [], Err(Busy))
    else Step(w.(life := life.(pending := Some(Attempt(id, now + timeout)), status := Some((id, Pending))),
                 issued := w.issued + {id}), [], Ok(()))
  }

  function Exchange(w: World, attempt: Id, now: int): Step {
    var life := Expire(w.life, now);
    if !Holds(life, attempt) then Step(w.(life := life), [], Err(Stale))
    else Step(w.(life := life.(status := if life.status.Some? then Some((life.status.value.0, Exchanging)) else None)),
              [], Ok(()))
  }

  function CancelAttempt(w: World, attempt: Id, now: int): Step {
    var life := Expire(w.life, now);
    if !Holds(life, attempt) then Step(w.(life := life), [], Err(Stale))
    else Step(w.(life := Terminal(life, Cancelled)), [], Ok(()))
  }

  function FinishAttempt(w: World, attempt: Id, succeeded: bool, now: int): Step {
    var life := Expire(w.life, now);
    if !Holds(life, attempt) then Step(w.(life := life), [], Err(Stale))
    else Step(w.(life := Terminal(life, if succeeded then Connected else Failed)), [], Ok(()))
  }

  // ---------------------------------------------------------------- staged writes

  /** Undo a staged write: the secret first, so that the row that leads to it goes last. */
  function Undo(w: World, disks: seq<Disk>, id: Id, original: Error, f: Faults): Step {
    if !f(3) then Step(w, disks, Err(Cleanup))
    else
      var bare := DropSecret(w.disk, id);
      if !f(4) then Step(w.(disk := bare), disks + [bare], Err(Cleanup))
      else Step(w.(disk := DropRow(bare, id)), disks + [bare, DropRow(bare, id)], Err(original))
  }

  /** A hidden row, then the secret, then a last look at the attempt, then the row made visible. */
  function CommitNew(w: World, attempt: Id, requested: seq<string>, tokens: Tokens, id: Id, before: int, after: int,
                     f: Faults): Step {
    var life := Expire(w.life, before);
    var granted := Granted(tokens.scope, requested, false);
    if !Holds(life, attempt) then Step(w.(life := life), [], Err(Stale))
    else if granted.None? then Step(w.(life := life), [], Err(Scope))
    else
      var row := Row(granted.value, tokens.expiresAt, false);
      var begun := w.(life := life, issued := w.issued + {id});
      if !f(0) then Step(begun, [], Err(Storage))
      else
        var staged := PutRow(w.disk, id, row);
        if !f(1) then Undo(begun.(disk := staged), [staged], id, Credential, f)
        else
          var written := PutSecret(staged, id, Secret(tokens.access, tokens.refresh));
          var later := Expire(life, after);
          var held := begun.(disk := written, life := later);
          if !Holds(later, attempt) then Undo(held, [staged, written], id, Stale, f)
          else if !f(2) then Undo(held, [staged, written], id, Storage, f)
          else
            var shown := PutRow(written, id, row.(connected := true));
            Step(held.(disk := shown, life := Terminal(later, Connected)), [staged, written, shown], Ok(()))
  }

  // ---------------------------------------------------------------- refreshing

  function BeginRefresh(w: World, id: Id, generation: Id): Step {
    if !IsConnected(w.disk, id) then Step(w, [], Err(NotFound))
    else if id !in w.disk.secrets || w.disk.secrets[id].refresh.None? then Step(w, [], Err(Credential))
    else if id in w.life.refreshes then Step(w, [], Err(Busy))
    else Step(w.(life := w.life.(refreshes := w.life.refreshes[id := generation]), issued := w.issued + {generation}),
              [], Ok(()))
  }

  predicate Leased(life: Life, id: Id, generation: Id) { id in life.refreshes && life.refreshes[id] == generation }

  function DropLease(w: World, id: Id, generation: Id): World {
    if Leased(w.life, id, generation) then w.(life := w.life.(refreshes := w.life.refreshes - {id})) else w
  }

  function CommitRefresh(w: World, id: Id, generation: Id, previous: nat, tokens: Tokens, f: Faults): Step {
    if !Leased(w.life, id, generation) then Step(w, [], Err(Stale))
    else if !IsConnected(w.disk, id) then Step(w, [], Err(Stale))
    else
      var granted := Granted(tokens.scope, w.disk.rows[id].scopes, true);
      if granted.None? then
        if !f(0) then Step(w, [], Err(Storage))
        else
          var marked := MarkRow(w.disk, id);
          Undo(w.(disk := marked), [marked], id, Scope, f)
      else
        var row := Row(granted.value, tokens.expiresAt, false);
        if !f(0) then Step(w, [], Err(Storage))
        else
          var staged := PutRow(w.disk, id, row);
          if !f(1) then Undo(w.(disk := staged), [staged], id, Credential, f)
          else
            var refresh := if tokens.refresh.Some? then tokens.refresh else Some(previous);
            var written := PutSecret(staged, id, Secret(tokens.access, refresh));
            if !f(2) then Undo(w.(disk := written), [staged, written], id, Storage, f)
            else
              var shown := PutRow(written, id, row.(connected := true));
              Step(DropLease(w.(disk := shown), id, generation), [staged, written, shown], Ok(()))
  }

  // ---------------------------------------------------------------- disconnecting

  /** The lease goes first, then the row is hidden, then the secret goes, then the row. */
  function Disconnect(w: World, id: Id, f: Faults): Step {
    var idle := w.(life := w.life.(refreshes := w.life.refreshes - {id}));
    var found := id in w.disk.rows;
    if !f(0) then Step(idle, [], Err(Unconfirmed))
    else
      var marked := MarkRow(w.disk, id);
      if !f(1) then Step(idle.(disk := marked), [marked], Err(if found then Cleanup else Credential))
      else
        var bare := DropSecret(marked, id);
        if !f(2) then Step(idle.(disk := bare), [marked, bare], Err(Cleanup))
        else
          var gone := DropRow(bare, id);
          Step(idle.(disk := gone), [marked, bare, gone], if found then Ok(()) else Err(NotFound))
  }

  /** Only the disk survives. */
  function Restart(w: World): World { w.(life := Life(None, None, map[])) }
}
