/** When each connector call goes through and exactly what it leaves, said of the fields of the world,
    the clock readings and the storage operations alone. */
module ConnectorVerdicts {
  import opened Wrappers
  import opened Connectors

  // ---------------------------------------------------------------- attempts

  /** An attempt of this id whose time is not over. */
  ghost predicate AttemptStands(life: Life, attempt: Id, now: int) {
    life.pending.Some? && life.pending.value.id == attempt && now < life.pending.value.deadline
  }

  /** The status moves to a phase and nothing is pending. */
  function Closed(life: Life, phase: Phase): Life {
    Life(None, if life.status.Some? then Some((life.status.value.0, phase)) else None, life.refreshes)
  }

  /** An attempt whose time is over has failed as soon as anyone looks. */
  function LookedAt(life: Life, now: int): Life {
    if life.pending.Some? && life.pending.value.deadline <= now then Closed(life, Failed) else life
  }

  /** One attempt at a time: another may begin once the last was closed or its time is over. */
  lemma BeginAttemptExactly(w: World, id: Id, now: int, timeout: nat)
    ensures var busy := w.life.pending.Some? && now < w.life.pending.value.deadline;
            BeginAttempt(w, id, now, timeout) ==
              if busy then Step(w, [], Err(Busy))
              else Step(World(w.disk, Life(Some(Attempt(id, now + timeout)), Some((id, Pending)), w.life.refreshes),
                              w.issued + {id}), [], Ok(()))
  {}

  /** Exchanging, cancelling and finishing ask for the attempt that stands, and close it or move it on. */
  lemma AttemptStepsExactly(w: World, attempt: Id, succeeded: bool, now: int)
    ensures AttemptStands(w.life, attempt, now) ==>
              && Exchange(w, attempt, now) ==
                 Step(w.(life := w.life.(status := if w.life.status.Some? then Some((w.life.status.value.0, Exchanging))
                                         else None)),
                      [], Ok(()))
              && CancelAttempt(w, attempt, now) == Step(w.(life := Closed(w.life, Cancelled)), [], Ok(()))
              && FinishAttempt(w, attempt, succeeded, now) ==
                 Step(w.(life := Closed(w.life, if succeeded then Connected else Failed)), [], Ok(()))
    ensures !AttemptStands(w.life, attempt, now) ==>
              var refused := Step(w.(life := LookedAt(w.life, now)), [], Err(Stale));
              && Exchange(w, attempt, now) == refused && CancelAttempt(w, attempt, now) == refused
              && FinishAttempt(w, attempt, succeeded, now) == refused
  {}

  // ---------------------------------------------------------------- scopes

  ghost predicate IsAllowed(s: string) {
    || s == "https://www.googleapis.com/auth/gmail.metadata"
    || s == "https://www.googleapis.com/auth/gmail.readonly"
    || s == "https://www.googleapis.com/auth/calendar.readonly"
  }

  /** One to eight allowed scopes, each of them asked for, none twice. */
  ghost predicate ScopesFit(scopes: seq<string>, requested: seq<string>) {
    && 1 <= |scopes| <= 8
    && (forall i | 0 <= i < |scopes| :: IsAllowed(scopes[i]) && scopes[i] in requested)
    && forall i, j | 0 <= i < |scopes| && 0 <= j < |scopes| && scopes[i] == scopes[j] :: i == j
  }

  lemma AllowedAre(s: string)
    ensures s in ALLOWED_SCOPES <==> IsAllowed(s)
  {}

  /** What a token grants: its own scopes; on a refresh that names none, those of before. */
  lemma GrantedExactly(scope: Option<seq<string>>, requested: seq<string>, refresh: bool)
    ensures var scopes := if scope.Some? then scope.value else requested;
            Granted(scope, requested, refresh) ==
              if (scope.Some? || refresh) && ScopesFit(scopes, requested) then Some(scopes) else None
  {
    var scopes := if scope.Some? then scope.value else requested;
    forall s ensures s in ALLOWED_SCOPES <==> IsAllowed(s) { AllowedAre(s); }
    hide IsAllowed;
    assert Within(scopes, requested) <==> forall i | 0 <= i < |scopes| :: scopes[i] in requested;
    if ValidScopes(scopes) {
      forall i, j | 0 <= i < |scopes| && 0 <= j < |scopes| && scopes[i] == scopes[j] ensures !(i < j) && !(j < i) {}
    }
  }

  // ---------------------------------------------------------------- undoing

  /** What is left of a disk when a staged write of `id` is undone, and the disks on the way: the
      secret goes first and then the row, as far as the storage lets them. */
  function Cleared(d: Disk, id: Id, secretGoes: bool, rowGoes: bool): (r: (Disk, seq<Disk>)) {
    var bare := d.(secrets := d.secrets - {id});
    var gone := bare.(rows := d.rows - {id});
    if !secretGoes then (d, []) else if !rowGoes then (bare, [bare]) else (gone, [bare, gone])
  }

  lemma UndoExactly(w: World, disks: seq<Disk>, id: Id, original: Error, f: Faults)
    ensures var left := Cleared(w.disk, id, f(3), f(4));
            Undo(w, disks, id, original, f) ==
              Step(w.(disk := left.0), disks + left.1, Err(if f(3) && f(4) then original else Cleanup))
  {
    assert disks + [] == disks;
  }

  // ---------------------------------------------------------------- a new connection

  /** Everything a commit asks for. */
  ghost predicate MayCommit(w: World, attempt: Id, requested: seq<string>, tokens: Tokens, before: int, after: int,
                            f: Faults)
  {
    && AttemptStands(w.life, attempt, before) && AttemptStands(w.life, attempt, after)
    && tokens.scope.Some? && ScopesFit(tokens.scope.value, requested)
    && f(0) && f(1) && f(2)
  }

  /** The first thing that stands against a commit; what cannot be undone is said to be unclean. */
  ghost function WhyUncommitted(w: World, attempt: Id, requested: seq<string>, tokens: Tokens, before: int, after: int,
                                f: Faults): Error
    requires !MayCommit(w, attempt, requested, tokens, before, after, f)
  {
    if !AttemptStands(w.life, attempt, before) then Stale
    else if tokens.scope.None? || !ScopesFit(tokens.scope.value, requested) then Scope
    else if !f(0) then Storage
    else if !f(3) || !f(4) then Cleanup
    else if !f(1) then Credential
    else if w.life.pending.value.deadline <= after then Stale
    else Storage
  }

  /** A commit shows a row with exactly the scopes granted and the tokens' own end, and keeps the
      tokens as its secret; the attempt is closed. It succeeds if and only if everything it asks for
      holds, and else answers the first thing against it. */
  lemma CommitNewExactly(w: World, attempt: Id, requested: seq<string>, tokens: Tokens, id: Id, before: int, after: int,
                         f: Faults)
    ensures var s := CommitNew(w, attempt, requested, tokens, id, before, after, f);
            && (s.result.Ok? <==> MayCommit(w, attempt, requested, tokens, before, after, f))
            && (s.result.Ok? ==>
                  var row := Row(tokens.scope.value, tokens.expiresAt, false);
                  var staged := w.disk.(rows := w.disk.rows[id := row]);
                  var written := staged.(secrets := w.disk.secrets[id := Secret(tokens.access, tokens.refresh)]);
                  var shown := written.(rows := w.disk.rows[id := row.(connected := true)]);
                  s == Step(World(shown, Closed(w.life, Connected), w.issued + {id}), [staged, written, shown], Ok(())))
            && (s.result.Err? ==> s.result.error == WhyUncommitted(w, attempt, requested, tokens, before, after, f))
  {
    hide Granted, ScopesFit, Undo;
    GrantedExactly(tokens.scope, requested, false);
    forall held, disks, original { UndoExactly(held, disks, id, original, f); }
    var row := Row(if tokens.scope.Some? then tokens.scope.value else requested, tokens.expiresAt, false);
    assert w.disk.rows[id := row][id := row.(connected := true)] == w.disk.rows[id := row.(connected := true)];
  }

  /** What a refused commit leaves: nothing before the first write, and after it what undoing leaves. */
  lemma CommitNewLeaves(w: World, attempt: Id, requested: seq<string>, tokens: Tokens, id: Id, before: int, after: int,
                        f: Faults)
    requires !MayCommit(w, attempt, requested, tokens, before, after, f)
    ensures var s := CommitNew(w, attempt, requested, tokens, id, before, after, f);
            if !AttemptStands(w.life, attempt, before) || tokens.scope.None?
                || !ScopesFit(tokens.scope.value, requested) then
              s.next == w.(life := LookedAt(w.life, before)) && s.disks == []
            else if !f(0) then
              s.next == w.(issued := w.issued + {id}) && s.disks == []
            else
              var staged := w.disk.(rows := w.disk.rows[id := Row(tokens.scope.value, tokens.expiresAt, false)]);
              var written := staged.(secrets := w.disk.secrets[id := Secret(tokens.access, tokens.refresh)]);
              var left := Cleared(if f(1) then written else staged, id, f(3), f(4));
              && s.next == World(left.0, if f(1) then LookedAt(w.life, after) else w.life, w.issued + {id})
              && s.disks == (if f(1) then [staged, written] else [staged]) + left.1
  {
    hide Granted, ScopesFit, Undo, Cleared;
    GrantedExactly(tokens.scope, requested, false);
    forall held, disks, original { UndoExactly(held, disks, id, original, f); }
  }

  // ---------------------------------------------------------------- a refresh

  lemma BeginRefreshExactly(w: World, id: Id, generation: Id)
    ensures var s := BeginRefresh(w, id, generation);
            && (s.result.Ok? <==>
                  && id in w.disk.rows && w.disk.rows[id].connected
                  && id in w.disk.secrets && w.disk.secrets[id].refresh.Some? && id !in w.life.refreshes)
            && (s.result.Ok? ==>
                  s == Step(World(w.disk, w.life.(refreshes := w.life.refreshes[id := generation]),
                                  w.issued + {generation}), [], Ok(())))
            && (s.result.Err? ==>
                  s == Step(w, [], Err(if id !in w.disk.rows || !w.disk.rows[id].connected then NotFound
                                       else if id !in w.disk.secrets || w.disk.secrets[id].refresh.None? then Credential
                                       else Busy)))
  {}

  /** The scopes a refresh ends with: those the token names, or those the row had. */
  function RenewedScopes(w: World, id: Id, tokens: Tokens): seq<string>
    requires id in w.disk.rows
  {
    if tokens.scope.Some? then tokens.scope.value else w.disk.rows[id].scopes
  }

  /** The lease is this generation's and the connection is still shown. */
  ghost predicate LeaseStands(w: World, id: Id, generation: Id) {
    id in w.life.refreshes && w.life.refreshes[id] == generation && id in w.disk.rows && w.disk.rows[id].connected
  }

  ghost predicate MayRenew(w: World, id: Id, generation: Id, tokens: Tokens, f: Faults) {
    && LeaseStands(w, id, generation) && ScopesFit(RenewedScopes(w, id, tokens), w.disk.rows[id].scopes)
    && f(0) && f(1) && f(2)
  }

  ghost function WhyNotRenewed(w: World, id: Id, generation: Id, tokens: Tokens, f: Faults): Error
    requires !MayRenew(w, id, generation, tokens, f)
  {
    if !LeaseStands(w, id, generation) then Stale
    else if !f(0) then Storage
    else if !f(3) || !f(4) then Cleanup
    else if !ScopesFit(RenewedScopes(w, id, tokens), w.disk.rows[id].scopes) then Scope
    else if !f(1) then Credential
    else Storage
  }

  /** A refresh shows the same row with the scopes it ends with and the new end, keeps the old refresh
      token when it is given no other, and returns its lease. */
  lemma CommitRefreshExactly(w: World, id: Id, generation: Id, previous: nat, tokens: Tokens, f: Faults)
    ensures var s := CommitRefresh(w, id, generation, previous, tokens, f);
            && (s.result.Ok? <==> MayRenew(w, id, generation, tokens, f))
            && (s.result.Ok? ==>
                  var row := Row(RenewedScopes(w, id, tokens), tokens.expiresAt, false);
                  var refresh := if tokens.refresh.Some? then tokens.refresh else Some(previous);
                  var staged := w.disk.(rows := w.disk.rows[id := row]);
                  var written := staged.(secrets := w.disk.secrets[id := Secret(tokens.access, refresh)]);
                  var shown := written.(rows := w.disk.rows[id := row.(connected := true)]);
                  s == Step(World(shown, w.life.(refreshes := w.life.refreshes - {id}), w.issued),
                            [staged, written, shown], Ok(())))
            && (s.result.Err? ==> s.result.error == WhyNotRenewed(w, id, generation, tokens, f))
  {
    hide Granted, ScopesFit, Undo;
    if LeaseStands(w, id, generation) {
      GrantedExactly(tokens.scope, w.disk.rows[id].scopes, true);
      forall held, disks, original { UndoExactly(held, disks, id, original, f); }
      var row := Row(RenewedScopes(w, id, tokens), tokens.expiresAt, false);
      assert w.disk.rows[id := row][id := row.(connected := true)] == w.disk.rows[id := row.(connected := true)];
    }
  }

  /** What a refused refresh leaves: nothing before the first write, and after it what undoing leaves;
      scopes that do not fit hide the row as it was. */
  lemma CommitRefreshLeaves(w: World, id: Id, generation: Id, previous: nat, tokens: Tokens, f: Faults)
    requires !MayRenew(w, id, generation, tokens, f)
    ensures var s := CommitRefresh(w, id, generation, previous, tokens, f);
            if !LeaseStands(w, id, generation) || !f(0) then s.next == w && s.disks == []
            else
              var fits := ScopesFit(RenewedScopes(w, id, tokens), w.disk.rows[id].scopes);
              var row := if fits then Row(RenewedScopes(w, id, tokens), tokens.expiresAt, false)
                         else w.disk.rows[id].(connected := false);
              var refresh := if tokens.refresh.Some? then tokens.refresh else Some(previous);
              var staged := w.disk.(rows := w.disk.rows[id := row]);
              var written := staged.(secrets := w.disk.secrets[id := Secret(tokens.access, refresh)]);
              var kept := fits && f(1);
              var left := Cleared(if kept then written else staged, id, f(3), f(4));
              && s.next == w.(disk := left.0) && s.disks == (if kept then [staged, written] else [staged]) + left.1
  {
    hide Granted, ScopesFit, Undo, Cleared;
    if LeaseStands(w, id, generation) {
      GrantedExactly(tokens.scope, w.disk.rows[id].scopes, true);
      forall held, disks, original { UndoExactly(held, disks, id, original, f); }
    }
  }

  // ---------------------------------------------------------------- giving a connection up

  /** Disconnecting takes the lease at once, and then hides the row, removes the secret and removes the
      row, as far as the storage lets it; it is done when all three went and there was a row. */
  lemma DisconnectExactly(w: World, id: Id, f: Faults)
    ensures var s := Disconnect(w, id, f);
            var found := id in w.disk.rows;
            var hidden := if found then w.disk.(rows := w.disk.rows[id := w.disk.rows[id].(connected := false)])
                else w.disk;
            var left := Cleared(hidden, id, f(1), f(2));
            var idle := w.life.(refreshes := w.life.refreshes - {id});
            if !f(0) then s == Step(w.(life := idle), [], Err(Unconfirmed))
            else
              && s.next == World(left.0, idle, w.issued) && s.disks == [hidden] + left.1
              && s.result == (if !f(1) then Err(if found then Cleanup else Credential)
                              else if !f(2) then Err(Cleanup)
                              else if found then Ok(()) else Err(NotFound))
  {}
}
