/** The two stores agree after every storage operation of every call, and a connection that has been
    given up never comes back. */
module ConnectorLaws {
  import opened Wrappers
  import opened Connectors

  // ---------------------------------------------------------------- agreement of the two stores

  /** A visible connection has its secret; a secret can be found through a row. */
  ghost predicate Consistent(d: Disk) {
    && (forall id | id in d.rows && d.rows[id].connected :: id in d.secrets)
    && (forall id | id in d.secrets :: id in d.rows)
  }

  ghost predicate AllConsistent(disks: seq<Disk>) { forall i | 0 <= i < |disks| :: Consistent(disks[i]) }

  ghost predicate Sound(w: World) {
    && Consistent(w.disk) && w.disk.rows.Keys <= w.issued
    && (forall id | id in w.life.refreshes :: w.life.refreshes[id] in w.issued)
  }

  /** What changes on the way from `a` to `b` concerns `id` alone. */
  ghost predicate Apart(a: Disk, b: Disk, id: Id) {
    forall k | k != id ::
      && (k in a.rows <==> k in b.rows) && (k in a.rows && k in b.rows ==> a.rows[k] == b.rows[k])
      && (k in a.secrets <==> k in b.secrets) && (k in a.secrets && k in b.secrets ==> a.secrets[k] == b.secrets[k])
  }

  lemma UndoKeeps(w: World, disks: seq<Disk>, id: Id, original: Error, f: Faults)
    requires Sound(w) && AllConsistent(disks) && id in w.disk.rows && !w.disk.rows[id].connected
    ensures var s := Undo(w, disks, id, original, f);
            && Sound(s.next) && AllConsistent(s.disks) && Apart(w.disk, s.next.disk, id)
            && !IsConnected(s.next.disk, id) && s.next.life == w.life && s.next.issued == w.issued && s.result.Err?
            && (s.result.error != Cleanup ==> id !in s.next.disk.rows && id !in s.next.disk.secrets)
            && (id in s.next.disk.secrets ==> id in w.disk.secrets && s.next.disk.secrets[id] == w.disk.secrets[id])
            && disks <= s.disks
  {}

  /** All there, or not visible at all; whatever happened, every disk on the way agreed and no other
      connection was touched. */
  ghost predicate NewOrNothing(w: World, s: Step, requested: seq<string>, tokens: Tokens, id: Id) {
    && Sound(s.next) && AllConsistent(s.disks) && Apart(w.disk, s.next.disk, id) && w.issued <= s.next.issued
    && s.next.life.refreshes == w.life.refreshes
    && (s.result.Ok? <==> IsConnected(s.next.disk, id))
    && (s.result.Ok? ==>
          && id in s.next.disk.secrets && s.next.disk.secrets[id] == Secret(tokens.access, tokens.refresh)
          && ValidScopes(s.next.disk.rows[id].scopes)
          && Within(s.next.disk.rows[id].scopes, requested))
    && (s.result.Err? && s.result.error != Cleanup ==> s.next.disk == w.disk)
  }

  lemma UndoneNew(w: World, held: World, disks: seq<Disk>, requested: seq<string>, tokens: Tokens, id: Id,
                  original: Error, f: Faults)
    requires Sound(w) && Sound(held) && AllConsistent(disks) && id !in w.disk.rows && id !in w.disk.secrets
             && original != Cleanup
    requires id in held.disk.rows && !held.disk.rows[id].connected && w.issued <= held.issued
    requires held.disk.rows - {id} == w.disk.rows && held.disk.secrets - {id} == w.disk.secrets
             && held.life.refreshes == w.life.refreshes
    ensures NewOrNothing(w, Undo(held, disks, id, original, f), requested, tokens, id)
  {
    UndoKeeps(held, disks, id, original, f);
    hide Sound, Consistent, ValidScopes;
    assert Apart(w.disk, held.disk, id) by {
      forall k | k != id ensures (k in w.disk.rows <==> k in held.disk.rows)
          && (k in w.disk.secrets <==> k in held.disk.secrets)
      {
        assert k in held.disk.rows - {id} <==> k in w.disk.rows;
        assert k in held.disk.secrets - {id} <==> k in w.disk.secrets;
      }
    }
  }

  lemma ShownNew(w: World, row: Row, requested: seq<string>, tokens: Tokens, id: Id, life: Life)
    requires Sound(w) && id !in w.issued && !row.connected && life.refreshes == w.life.refreshes
    requires Granted(tokens.scope, requested, false) == Some(row.scopes)
    ensures var staged := PutRow(w.disk, id, row);
            var written := PutSecret(staged, id, Secret(tokens.access, tokens.refresh));
            var shown := PutRow(written, id, row.(connected := true));
            NewOrNothing(w, Step(World(shown, life, w.issued + {id}), [staged, written, shown], Ok(())), requested,
                         tokens, id)
  {
    NewOnTheWay(w, row, Secret(tokens.access, tokens.refresh), id);
    GrantedWithin(tokens.scope, requested, false);
    hide Granted, ValidScopes, Within;
  }

  /** What is granted was asked for. */
  lemma GrantedWithin(scope: Option<seq<string>>, requested: seq<string>, refresh: bool)
    requires Granted(scope, requested, refresh).Some?
    ensures var scopes := Granted(scope, requested, refresh).value;
            ValidScopes(scopes) && Within(scopes, requested)
  {}

  lemma NewRefused(w: World, next: World, requested: seq<string>, tokens: Tokens, id: Id, error: Error)
    requires Sound(w) && id !in w.issued && next.disk == w.disk && next.life.refreshes == w.life.refreshes
    requires w.issued <= next.issued
    ensures NewOrNothing(w, Step(next, [], Err(error)), requested, tokens, id)
  {}

  lemma CommitNewKeeps(w: World, attempt: Id, requested: seq<string>, tokens: Tokens, id: Id, before: int, after: int,
                       f: Faults)
    requires Sound(w) && id !in w.issued
    ensures NewOrNothing(w, CommitNew(w, attempt, requested, tokens, id, before, after, f), requested, tokens, id)
  {
    hide NewOrNothing, Undo, Granted, ValidScopes, Within, Sound, AllConsistent, PutRow, PutSecret;
    var life := Expire(w.life, before);
    var granted := Granted(tokens.scope, requested, false);
    NewRefused(w, w.(life := life), requested, tokens, id, Stale);
    NewRefused(w, w.(life := life), requested, tokens, id, Scope);
    if Holds(life, attempt) && granted.Some? {
      var row := Row(granted.value, tokens.expiresAt, false);
      var begun := w.(life := life, issued := w.issued + {id});
      NewRefused(w, begun, requested, tokens, id, Storage);
      NewOnTheWay(w, row, Secret(tokens.access, tokens.refresh), id);
      var staged := PutRow(w.disk, id, row);
      var written := PutSecret(staged, id, Secret(tokens.access, tokens.refresh));
      var held := begun.(disk := written, life := Expire(life, after));
      MoreSound(w, begun.(disk := staged), id);
      MoreSound(w, held, id);
      UndoneNew(w, begun.(disk := staged), [staged], requested, tokens, id, Credential, f);
      UndoneNew(w, held, [staged, written], requested, tokens, id, Stale, f);
      UndoneNew(w, held, [staged, written], requested, tokens, id, Storage, f);
      ShownNew(w, row, requested, tokens, id, Terminal(held.life, Connected));
    }
  }

  lemma MoreSound(w: World, next: World, id: Id)
    requires Sound(w) && Consistent(next.disk) && next.disk.rows.Keys <= w.issued + {id}
    requires next.issued == w.issued + {id} && next.life.refreshes == w.life.refreshes
    ensures Sound(next)
  {}

  lemma NewOnTheWay(w: World, row: Row, secret: Secret, id: Id)
    requires Sound(w) && id !in w.issued && !row.connected
    ensures var staged := PutRow(w.disk, id, row);
            var written := PutSecret(staged, id, secret);
            && Consistent(staged) && Consistent(written) && Consistent(PutRow(written, id, row.(connected := true)))
            && AllConsistent([staged]) && AllConsistent([staged, written])
            && staged.rows.Keys <= w.issued + {id} && written.rows.Keys <= w.issued + {id}
            && id !in w.disk.rows && id !in w.disk.secrets
            && id in staged.rows && staged.rows[id] == row && id in written.rows && written.rows[id] == row
            && staged.rows - {id} == w.disk.rows && staged.secrets - {id} == w.disk.secrets
            && written.rows - {id} == w.disk.rows && written.secrets - {id} == w.disk.secrets
  {}

  /** A refresh is refused, done whole, or ends with the connection hidden. */
  ghost predicate RenewedOrHidden(w: World, s: Step, id: Id, generation: Id, secret: Secret) {
    && Sound(s.next) && AllConsistent(s.disks) && Apart(w.disk, s.next.disk, id) && s.next.issued == w.issued
    && (!IsConnected(w.disk, id) || !Leased(w.life, id, generation) ==> s == Step(w, [], Err(Stale)))
    && (s.result.Ok? ==>
          && IsConnected(s.next.disk, id) && id in s.next.disk.secrets && s.next.disk.secrets[id] == secret
          && id in w.disk.rows
          && Within(s.next.disk.rows[id].scopes, w.disk.rows[id].scopes))
    && (s.result.Err? && s.next != w ==> !IsConnected(s.next.disk, id))
    && (forall k | k in s.next.life.refreshes ::
        k in w.life.refreshes && s.next.life.refreshes[k] == w.life.refreshes[k])
  }

  lemma UndoneRefresh(w: World, held: World, disks: seq<Disk>, id: Id, generation: Id, secret: Secret, original: Error,
                      f: Faults)
    requires Sound(w) && Sound(held) && AllConsistent(disks) && IsConnected(w.disk, id)
             && Leased(w.life, id, generation)
    requires id in held.disk.rows && !held.disk.rows[id].connected && Apart(w.disk, held.disk, id)
    requires held.life == w.life && held.issued == w.issued
    ensures RenewedOrHidden(w, Undo(held, disks, id, original, f), id, generation, secret)
  {
    UndoKeeps(held, disks, id, original, f);
    hide Sound, Consistent, Undo;
  }

  lemma ShownRefresh(w: World, row: Row, secret: Secret, id: Id, generation: Id)
    requires Sound(w) && IsConnected(w.disk, id) && Leased(w.life, id, generation) && !row.connected
    requires Within(row.scopes, w.disk.rows[id].scopes)
    ensures var staged := PutRow(w.disk, id, row);
            var written := PutSecret(staged, id, secret);
            var shown := PutRow(written, id, row.(connected := true));
            RenewedOrHidden(w, Step(DropLease(w.(disk := shown), id, generation), [staged, written, shown], Ok(())), id,
                            generation, secret)
  {
    RefreshOnTheWay(w, row, secret, id);
  }

  lemma RefreshRefused(w: World, id: Id, generation: Id, secret: Secret, error: Error)
    requires Sound(w) && (!IsConnected(w.disk, id) || !Leased(w.life, id, generation) ==> error == Stale)
    ensures RenewedOrHidden(w, Step(w, [], Err(error)), id, generation, secret)
  {}

  lemma CommitRefreshKeeps(w: World, id: Id, generation: Id, previous: nat, tokens: Tokens, f: Faults)
    requires Sound(w)
    ensures RenewedOrHidden(w, CommitRefresh(w, id, generation, previous, tokens, f), id, generation,
                            Secret(tokens.access, if tokens.refresh.Some? then tokens.refresh else Some(previous)))
  {
    var secret := Secret(tokens.access, if tokens.refresh.Some? then tokens.refresh else Some(previous));
    hide RenewedOrHidden, Undo, Granted, ValidScopes, Sound, Within;
    RefreshRefused(w, id, generation, secret, Stale);
    if Leased(w.life, id, generation) && IsConnected(w.disk, id) {
      RefreshRefused(w, id, generation, secret, Storage);
      var granted := Granted(tokens.scope, w.disk.rows[id].scopes, true);
      if granted.None? {
        HiddenOnTheWay(w, id);
        UndoneRefresh(w, w.(disk := MarkRow(w.disk, id)), [MarkRow(w.disk, id)], id, generation, secret, Scope, f);
      } else if f(0) {
        GrantedWithin(tokens.scope, w.disk.rows[id].scopes, true);
        var row := Row(granted.value, tokens.expiresAt, false);
        RefreshOnTheWay(w, row, secret, id);
        var staged := PutRow(w.disk, id, row);
        var written := PutSecret(staged, id, secret);
        hide Consistent;
        UndoneRefresh(w, w.(disk := staged), [staged], id, generation, secret, Credential, f);
        UndoneRefresh(w, w.(disk := written), [staged, written], id, generation, secret, Storage, f);
        ShownRefresh(w, row, secret, id, generation);
      }
    }
  }

  lemma HiddenOnTheWay(w: World, id: Id)
    requires Sound(w) && IsConnected(w.disk, id)
    ensures Sound(w.(disk := MarkRow(w.disk, id))) && AllConsistent([MarkRow(w.disk, id)])
  {}

  lemma RefreshOnTheWay(w: World, row: Row, secret: Secret, id: Id)
    requires Sound(w) && IsConnected(w.disk, id) && !row.connected
    ensures var staged := PutRow(w.disk, id, row);
            var written := PutSecret(staged, id, secret);
            && AllConsistent([staged, written, PutRow(written, id, row.(connected := true))])
            && AllConsistent([staged]) && AllConsistent([staged, written])
            && Sound(w.(disk := staged)) && Sound(w.(disk := written))
            && Sound(w.(disk := PutRow(written, id, row.(connected := true))))
  {
    var staged := PutRow(w.disk, id, row);
    assert staged.rows.Keys <= w.issued;
  }

  /** What a disconnect leaves, whatever fails: still connected only if it was and hiding the row
      failed, a secret only if there was one and hiding or removing failed; never a lease. */
  lemma DisconnectKeeps(w: World, id: Id, f: Faults)
    requires Sound(w)
    ensures var s := Disconnect(w, id, f);
            && Sound(s.next) && AllConsistent(s.disks) && Apart(w.disk, s.next.disk, id) && s.next.issued == w.issued
            && (IsConnected(s.next.disk, id) <==> IsConnected(w.disk, id) && !f(0))
            && (id in s.next.disk.secrets <==> id in w.disk.secrets && !(f(0) && f(1)))
            && (id in s.next.disk.rows <==> id in w.disk.rows && !(f(0) && f(1) && f(2)))
            && id !in s.next.life.refreshes
            && (s.result.Ok? ==> id !in s.next.disk.rows && id !in s.next.disk.secrets)
  {}

  // ---------------------------------------------------------------- whole runs

  datatype Action =
    | Begin(attempt: Id, now: int, timeout: nat)
    | Trade(attempt: Id, now: int)
    | Cancel(attempt: Id, now: int)
    | Finish(attempt: Id, succeeded: bool, now: int)
    | Commit(attempt: Id, requested: seq<string>, tokens: Tokens, id: Id, before: int, after: int)
    | Lease(id: Id, generation: Id)
    | Renew(id: Id, generation: Id, previous: nat, tokens: Tokens)
    | Release(id: Id, generation: Id)
    | Remove(id: Id)
    | Stop
    | Crash(call: Action, done: nat)

  /** The process stops inside a call, after so many of its storage operations. */
  function Crashed(w: World, s: Step, done: nat): Step {
    var n := if done < |s.disks| then done else |s.disks|;
    Step(Restart(s.next.(disk := if n == 0 then w.disk else s.disks[n - 1])), s.disks[..n], Ok(()))
  }

  function Act(w: World, a: Action, f: Faults): Step
    decreases a
  {
    match a
    case Begin(attempt, now, timeout) => BeginAttempt(w, attempt, now, timeout)
    case Trade(attempt, now) => Exchange(w, attempt, now)
    case Cancel(attempt, now) => CancelAttempt(w, attempt, now)
    case Finish(attempt, succeeded, now) => FinishAttempt(w, attempt, succeeded, now)
    case Commit(attempt, requested, tokens, id, before, after) =>
        CommitNew(w, attempt, requested, tokens, id, before, after, f)
    case Lease(id, generation) => BeginRefresh(w, id, generation)
    case Renew(id, generation, previous, tokens) => CommitRefresh(w, id, generation, previous, tokens, f)
    case Release(id, generation) => Step(DropLease(w, id, generation), [], Ok(()))
    case Remove(id) => Disconnect(w, id, f)
    case Stop => Step(Restart(w), [], Ok(()))
    case Crash(call, done) => Crashed(w, Act(w, call, f), done)
  }

  /** New ids are new, and it is a call that a crash cuts short. */
  predicate Permitted(w: World, a: Action)
    decreases a
  {
    match a
    case Begin(attempt, _, _) => attempt !in w.issued
    case Commit(_, _, _, id, _, _) => id !in w.issued
    case Lease(_, generation) => generation !in w.issued
    case Crash(call, _) => !call.Crash? && Permitted(w, call)
    case _ => true
  }

  // ---------------------------------------------------------------- crashes

  /** The operations up to the one numbered `n`, as far as they succeed. */
  function Before(f: Faults, n: nat): Faults { (i: nat) => i < n && f(i) }

  /** All operations that succeed, but the last of an undo. */
  function KeepRow(f: Faults): Faults { (i: nat) => i != 4 && f(i) }

  /** `g` makes the call end as it does under `f` when it is cut short after `n` operations. */
  ghost predicate EndsAs(w: World, call: Action, f: Faults, g: Faults, n: nat) {
    var s, t := Act(w, call, f), Act(w, call, g);
    n <= |s.disks| && t.disks == s.disks[..n] && t.next.disk == (if n == 0 then w.disk else s.disks[n - 1])
        && t.next.issued == s.next.issued
  }

  lemma CommitCrash(w: World, call: Action, f: Faults, n: nat) returns (g: Faults)
    requires call.Commit? && n <= |Act(w, call, f).disks|
    ensures EndsAs(w, call, f, g, n)
  {
    hide Act, EndsAs;
    g := f;
    if n == |Act(w, call, f).disks| {
      CommitUncut(w, call, f);
    } else {
      if n == 0 {
        g := Before(f, 0);
        CommitCutFirst(w, call, f);
      } else if n == 1 {
        g := Before(f, 1);
        CommitCutStaged(w, call, f);
      } else if n == 2 && f(1) {
        g := Before(f, 2);
        CommitCutWritten(w, call, f);
      } else {
        g := KeepRow(f);
        CommitCutUndo(w, call, f, n);
      }
    }
  }

  lemma CommitUncut(w: World, call: Action, f: Faults)
    requires call.Commit?
    ensures EndsAs(w, call, f, f, |Act(w, call, f).disks|)
  {
    hide Granted, Expire, PutRow, PutSecret;
  }

  lemma CommitCutFirst(w: World, call: Action, f: Faults)
    requires call.Commit? && 0 < |Act(w, call, f).disks|
    ensures EndsAs(w, call, f, Before(f, 0), 0)
  {
    hide Granted, Expire, PutRow, PutSecret;
  }

  lemma CommitCutStaged(w: World, call: Action, f: Faults)
    requires call.Commit? && 1 < |Act(w, call, f).disks|
    ensures EndsAs(w, call, f, Before(f, 1), 1)
  {
    hide Granted, Expire, PutRow, PutSecret;
  }

  lemma CommitCutWritten(w: World, call: Action, f: Faults)
    requires call.Commit? && 2 < |Act(w, call, f).disks| && f(1)
    ensures EndsAs(w, call, f, Before(f, 2), 2)
  {
    hide Granted, Expire, PutRow, PutSecret;
  }

  lemma CommitCutUndo(w: World, call: Action, f: Faults, n: nat)
    requires call.Commit? && 2 <= n < |Act(w, call, f).disks| && !(n == 2 && f(1))
    ensures EndsAs(w, call, f, KeepRow(f), n)
  {
    hide Granted, Expire, PutRow, PutSecret;
  }

  lemma RenewCrash(w: World, call: Action, f: Faults, n: nat) returns (g: Faults)
    requires call.Renew? && n <= |Act(w, call, f).disks|
    ensures EndsAs(w, call, f, g, n)
  {
    hide Act, EndsAs;
    var written := |Act(w, call, Before(f, 2)).disks| == 2;
    if n == |Act(w, call, f).disks| {
      g := f;
      RenewUncut(w, call, f);
    } else if n < 2 || (n == 2 && written) {
      g := Before(f, n);
      RenewCut(w, call, f, n);
    } else {
      g := KeepRow(f);
      RenewCutUndo(w, call, f, n);
    }
  }

  lemma RenewUncut(w: World, call: Action, f: Faults)
    requires call.Renew?
    ensures EndsAs(w, call, f, f, |Act(w, call, f).disks|)
  {
    hide Granted, PutRow, PutSecret, MarkRow;
  }

  lemma RenewCut(w: World, call: Action, f: Faults, n: nat)
    requires call.Renew? && n < |Act(w, call, f).disks|
             && (n < 2 || (n == 2 && |Act(w, call, Before(f, 2)).disks| == 2))
    ensures EndsAs(w, call, f, Before(f, n), n)
  {
    hide Granted, PutRow, PutSecret, MarkRow;
  }

  lemma RenewCutUndo(w: World, call: Action, f: Faults, n: nat)
    requires call.Renew? && 2 <= n < |Act(w, call, f).disks| && !(n == 2 && |Act(w, call, Before(f, 2)).disks| == 2)
    ensures EndsAs(w, call, f, KeepRow(f), n)
  {
    hide Granted, PutRow, PutSecret, MarkRow;
  }

  lemma RemoveCrash(w: World, call: Action, f: Faults, n: nat) returns (g: Faults)
    requires call.Remove? && n <= |Act(w, call, f).disks|
    ensures EndsAs(w, call, f, g, n)
  {
    g := Before(f, n);
  }

  /** A crash inside a call leaves what the call leaves when its remaining storage operations fail
      and the process then stops. */
  lemma CrashIsFailure(w: World, call: Action, done: nat, f: Faults) returns (g: Faults)
    requires !call.Crash?
    ensures Act(w, Crash(call, done), f).next == Restart(Act(w, call, g).next)
    ensures Act(w, Crash(call, done), f).disks == Act(w, call, g).disks
  {
    hide Act;
    CrashIs(w, call, done, f);
    var s := Act(w, call, f);
    var n := if done < |s.disks| then done else |s.disks|;
    g := f;
    match call {
      case Commit(_, _, _, _, _, _) => g := CommitCrash(w, call, f, n);
      case Renew(_, _, _, _) => g := RenewCrash(w, call, f, n);
      case Remove(_) => g := RemoveCrash(w, call, f, n);
      case _ => NothingStored(w, call, f);
    }
    assert EndsAs(w, call, f, g, n);
  }

  lemma CrashIs(w: World, call: Action, done: nat, f: Faults)
    ensures Act(w, Crash(call, done), f) == Crashed(w, Act(w, call, f), done)
  {
    hide CommitNew, CommitRefresh, Disconnect;
  }

  lemma NothingStored(w: World, call: Action, f: Faults)
    requires !(call.Commit? || call.Renew? || call.Remove? || call.Crash?)
    ensures Act(w, call, f).disks == [] && Act(w, call, f).next.disk == w.disk
  {
    hide CommitNew, CommitRefresh, Disconnect;
  }

  // ---------------------------------------------------------------- every step

  /** What a call can do to a connection that exists already: hide it, drop its secret, never show it
      or give it a secret again; and a lease lost is not found again. */
  ghost predicate Fades(a: World, b: World, id: Id) {
    && (id in a.issued ==> id in b.issued)
    && (id in a.issued && !IsConnected(a.disk, id) ==>
          && !IsConnected(b.disk, id)
          && (id in b.disk.secrets ==> id in a.disk.secrets && b.disk.secrets[id] == a.disk.secrets[id]))
  }

  lemma StepKeeps(w: World, a: Action, f: Faults)
    requires Sound(w) && Permitted(w, a)
    ensures var s := Act(w, a, f); Sound(s.next) && AllConsistent(s.disks) && w.issued <= s.next.issued
    ensures forall id :: Fades(w, Act(w, a, f).next, id)
    decreases a
  {
    hide CommitNew, CommitRefresh, Disconnect;
    match a {
      case Commit(attempt, requested, tokens, id, before, after) =>
        CommitNewKeeps(w, attempt, requested, tokens, id, before, after, f);
      case Renew(id, generation, previous, tokens) => CommitRefreshKeeps(w, id, generation, previous, tokens, f);
      case Remove(id) =>
        DisconnectKeeps(w, id, f);
        DisconnectForgets(w, id, f);
      case Crash(call, done) =>
        var g := CrashIsFailure(w, call, done, f);
        StepKeeps(w, call, g);
        RestartKeeps(w, Act(w, call, g).next);
      case _ =>
    }
  }

  lemma RestartKeeps(w: World, mid: World)
    requires Sound(mid) && w.issued <= mid.issued && forall id :: Fades(w, mid, id)
    ensures Sound(Restart(mid)) && w.issued <= Restart(mid).issued && forall id :: Fades(w, Restart(mid), id)
  {
    forall id ensures Fades(w, Restart(mid), id) { assert Fades(w, mid, id); }
  }

  lemma DisconnectForgets(w: World, id: Id, f: Faults)
    ensures var b := Disconnect(w, id, f).next;
            id in b.disk.secrets ==> id in w.disk.secrets && b.disk.secrets[id] == w.disk.secrets[id]
  {}

  ghost predicate Behaviour(trace: seq<World>, actions: seq<Action>, faults: seq<Faults>) {
    && |trace| == |actions| + 1 == |faults| + 1 && trace[0] == START
    && (forall i | 0 <= i < |actions| :: Permitted(trace[i], actions[i]))
    && (forall i | 0 <= i < |actions| :: trace[i + 1] == Act(trace[i], actions[i], faults[i]).next)
  }

  /** In every run, after every storage operation of every call, the two stores agree. */
  lemma {:induction false} StoresAgree(trace: seq<World>, actions: seq<Action>, faults: seq<Faults>, i: nat)
    requires Behaviour(trace, actions, faults) && i <= |actions|
    ensures Sound(trace[i])
    ensures i < |actions| ==> AllConsistent(Act(trace[i], actions[i], faults[i]).disks)
  {
    hide Act, Permitted, Sound;
    if i == 0 {
      StartSound();
    } else {
      StoresAgree(trace, actions, faults, i - 1);
      StepKeeps(trace[i - 1], actions[i - 1], faults[i - 1]);
      assert trace[i - 1 + 1] == Act(trace[i - 1], actions[i - 1], faults[i - 1]).next;
    }
    if i < |actions| { StepKeeps(trace[i], actions[i], faults[i]); }
  }

  lemma StartSound()
    ensures Sound(START)
  {}

  /** A connection that is hidden or gone stays so, and its secret is never written again. */
  lemma {:induction false} NeverComesBack(trace: seq<World>, actions: seq<Action>, faults: seq<Faults>, i: nat, j: nat,
                                          id: Id)
    requires Behaviour(trace, actions, faults) && i <= j <= |actions|
    requires id in trace[i].issued && !IsConnected(trace[i].disk, id)
    ensures id in trace[j].issued && !IsConnected(trace[j].disk, id)
    ensures id in trace[j].disk.secrets ==>
              id in trace[i].disk.secrets && trace[j].disk.secrets[id] == trace[i].disk.secrets[id]
    decreases j
  {
    hide Act, Permitted, Sound;
    if i < j {
      NeverComesBack(trace, actions, faults, i, j - 1, id);
      StoresAgree(trace, actions, faults, j - 1);
      StepKeeps(trace[j - 1], actions[j - 1], faults[j - 1]);
      assert trace[j - 1 + 1] == Act(trace[j - 1], actions[j - 1], faults[j - 1]).next;
      assert Fades(trace[j - 1], trace[j], id);
    }
  }

  /** After a disconnect whose first write succeeded, the connection is never seen again, even if a
      refresh was in flight; if its secret was removed too, no secret is ever stored again. If the
      first write failed, what was connected still is. */
  lemma DisconnectIsFinal(trace: seq<World>, actions: seq<Action>, faults: seq<Faults>, i: nat, j: nat, id: Id)
    requires Behaviour(trace, actions, faults) && i < j <= |actions| && actions[i] == Remove(id)
             && id in trace[i].issued
    ensures faults[i](0) ==> !IsConnected(trace[j].disk, id)
    ensures faults[i](0) && faults[i](1) ==> id !in trace[j].disk.secrets
    ensures !faults[i](0) ==> (IsConnected(trace[i + 1].disk, id) <==> IsConnected(trace[i].disk, id))
  {
    hide Act, Permitted, Sound;
    StoresAgree(trace, actions, faults, i);
    DisconnectKeeps(trace[i], id, faults[i]);
    assert trace[i + 1] == Disconnect(trace[i], id, faults[i]).next by { RemoveIs(trace[i], id, faults[i]); }
    if faults[i](0) { NeverComesBack(trace, actions, faults, i + 1, j, id); }
  }

  lemma RemoveIs(w: World, id: Id, f: Faults)
    ensures Act(w, Remove(id), f) == Disconnect(w, id, f)
  {}

  // ---------------------------------------------------------------- leases

  ghost predicate Lost(w: World, generation: Id) {
    generation in w.issued && forall id :: !Leased(w.life, id, generation)
  }

  lemma LostStaysLost(w: World, a: Action, f: Faults, generation: Id)
    requires Sound(w) && Permitted(w, a) && Lost(w, generation)
    ensures Lost(Act(w, a, f).next, generation)
  {
    hide CommitNew, CommitRefresh, NewOrNothing, RenewedOrHidden;
    var b := Act(w, a, f).next;
    assert forall id :: !Leased(w.life, id, generation);
    match a {
      case Commit(attempt, requested, tokens, id, before, after) =>
        CommitNewKeeps(w, attempt, requested, tokens, id, before, after, f);
        LeasesUntouched(w, Act(w, a, f), requested, tokens, id);
      case Renew(id, g, previous, tokens) =>
        CommitRefreshKeeps(w, id, g, previous, tokens, f);
        LeasesShrink(w, Act(w, a, f), id, g,
                     Secret(tokens.access, if tokens.refresh.Some? then tokens.refresh else Some(previous)));
      case Crash(_, _) => StepKeeps(w, a, f);
      case _ =>
    }
    forall id ensures !Leased(b.life, id, generation) {
      assert !Leased(w.life, id, generation);
    }
  }

  lemma LeasesUntouched(w: World, s: Step, requested: seq<string>, tokens: Tokens, id: Id)
    requires NewOrNothing(w, s, requested, tokens, id)
    ensures s.next.life.refreshes == w.life.refreshes && w.issued <= s.next.issued
  {}

  lemma LeasesShrink(w: World, s: Step, id: Id, generation: Id, secret: Secret)
    requires RenewedOrHidden(w, s, id, generation, secret)
    ensures s.next.issued == w.issued
    ensures forall k | k in s.next.life.refreshes ::
            k in w.life.refreshes && s.next.life.refreshes[k] == w.life.refreshes[k]
  {}

  /** A refresh whose lease was taken away is refused for ever after, and writes nothing. */
  lemma {:induction false} LateRefreshIsRefused(trace: seq<World>, actions: seq<Action>, faults: seq<Faults>, i: nat,
                                                j: nat, id: Id, generation: Id, previous: nat, tokens: Tokens,
                                                f: Faults)
    requires Behaviour(trace, actions, faults) && i <= j <= |actions| && Lost(trace[i], generation)
    ensures Lost(trace[j], generation)
            && CommitRefresh(trace[j], id, generation, previous, tokens, f) == Step(trace[j], [], Err(Stale))
    decreases j
  {
    hide Act, Permitted, Sound;
    if i < j {
      LateRefreshIsRefused(trace, actions, faults, i, j - 1, id, generation, previous, tokens, f);
      StoresAgree(trace, actions, faults, j - 1);
      LostStaysLost(trace[j - 1], actions[j - 1], faults[j - 1], generation);
      assert trace[j - 1 + 1] == Act(trace[j - 1], actions[j - 1], faults[j - 1]).next;
    }
  }
}
