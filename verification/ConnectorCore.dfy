/** The connector commands as the source writes them: under one lock they change the lifecycle, the
    rows and the secrets one after the other, and each storage call may fail. */
module ConnectorCore {
  import opened Wrappers
  import opened Connectors
  import L = ConnectorLaws

  class Core {
    var rows: map<Id, Row>
    var secrets: map<Id, Secret>
    var life: Life
    ghost var issued: set<Id>
    /** Every disk a crash could have found, in order. */
    ghost var seen: seq<Disk>

    ghost function Durable(): Disk
      reads this
    {
      Disk(rows, secrets)
    }

    ghost function Now(): World
      reads this
    {
      World(Durable(), life, issued)
    }

    /** It is now as `s` says, and since `start` the disks on the way were those of `s`. */
    ghost predicate Did(s: Step, start: seq<Disk>, r: Result<(), Error>)
      reads this
    {
      Now() == s.next && seen == start + s.disks && r == s.result
    }

    constructor ()
      ensures Now() == START && seen == []
    {
      rows, secrets, life, issued, seen := map[], map[], Life(None, None, map[]), {}, [];
    }

    // ---------------------------------------------------------------- storage, one call at a time

    method SaveRow(id: Id, row: Row, works: bool) returns (r: Result<(), Error>)
      modifies this`rows, this`seen
      ensures r == if works then Ok(()) else Err(Storage)
      ensures works ==> Durable() == PutRow(old(Durable()), id, row) && seen == old(seen) + [Durable()]
      ensures !works ==> Durable() == old(Durable()) && seen == old(seen)
    {
      if !works { return Err(Storage); }
      rows := rows[id := row];
      seen := seen + [Durable()];
      return Ok(());
    }

    method WriteSecret(id: Id, secret: Secret, works: bool) returns (r: Result<(), Error>)
      modifies this`secrets, this`seen
      ensures r == if works then Ok(()) else Err(Credential)
      ensures works ==> Durable() == PutSecret(old(Durable()), id, secret) && seen == old(seen) + [Durable()]
      ensures !works ==> Durable() == old(Durable()) && seen == old(seen)
    {
      if !works { return Err(Credential); }
      secrets := secrets[id := secret];
      seen := seen + [Durable()];
      return Ok(());
    }

    method RemoveSecret(id: Id, works: bool) returns (r: Result<(), Error>)
      modifies this`secrets, this`seen
      ensures r == if works then Ok(()) else Err(Credential)
      ensures works ==> Durable() == DropSecret(old(Durable()), id) && seen == old(seen) + [Durable()]
      ensures !works ==> Durable() == old(Durable()) && seen == old(seen)
    {
      if !works { return Err(Credential); }
      secrets := secrets - {id};
      seen := seen + [Durable()];
      return Ok(());
    }

    method DeleteRow(id: Id, works: bool) returns (r: Result<(), Error>)
      modifies this`rows, this`seen
      ensures r == if works then Ok(()) else Err(Storage)
      ensures works ==> Durable() == DropRow(old(Durable()), id) && seen == old(seen) + [Durable()]
      ensures !works ==> Durable() == old(Durable()) && seen == old(seen)
    {
      if !works { return Err(Storage); }
      rows := rows - {id};
      seen := seen + [Durable()];
      return Ok(());
    }

    method MarkDisconnected(id: Id, works: bool) returns (r: Result<bool, Error>)
      modifies this`rows, this`seen
      ensures r == if works then Ok(id in old(rows)) else Err(Storage)
      ensures works ==> Durable() == MarkRow(old(Durable()), id) && seen == old(seen) + [Durable()]
      ensures !works ==> Durable() == old(Durable()) && seen == old(seen)
    {
      if !works { return Err(Storage); }
      var found := id in rows;
      if found { rows := rows[id := rows[id].(connected := false)]; }
      seen := seen + [Durable()];
      return Ok(found);
    }

    // ---------------------------------------------------------------- lifecycle

    method CheckAttempt(attempt: Id, now: int) returns (r: Result<(), Error>)
      modifies this`life
      ensures life == Expire(old(life), now)
      ensures r == if Holds(life, attempt) then Ok(()) else Err(Stale)
    {
      if life.pending.Some? && now >= life.pending.value.deadline {
        life := Terminal(life, Failed);
      }
      return if life.pending.Some? && life.pending.value.id == attempt then Ok(()) else Err(Stale);
    }

    method FinishRefresh(id: Id, generation: Id)
      modifies this`life
      ensures Now() == DropLease(old(Now()), id, generation)
    {
      if id in life.refreshes && life.refreshes[id] == generation {
        life := life.(refreshes := life.refreshes - {id});
      }
    }

    // ---------------------------------------------------------------- commands

    method RollbackStaged(id: Id, original: Error, f: Faults, ghost start: seq<Disk>, ghost disks: seq<Disk>)
      returns (r: Result<(), Error>)
      requires seen == start + disks
      modifies this
      ensures Did(Undo(old(Now()), disks, id, original, f), start, r)
    {
      var removed := RemoveSecret(id, f(3));
      if removed.Err? { return Err(Cleanup); }
      var deleted := DeleteRow(id, f(4));
      if deleted.Err? { return Err(Cleanup); }
      return Err(original);
    }

    method CommitNew(attempt: Id, requested: seq<string>, tokens: Tokens, id: Id, before: int, after: int, f: Faults)
      returns (r: Result<(), Error>)
      modifies this
      ensures Did(Connectors.CommitNew(old(Now()), attempt, requested, tokens, id, before, after, f), old(seen), r)
    {
      hide Granted, Expire, Undo;
      ghost var start := seen;
      var _ :- CheckAttempt(attempt, before);
      var scopes := Granted(tokens.scope, requested, false);
      if scopes.None? { return Err(Scope); }
      issued := issued + {id};
      var row := Row(scopes.value, tokens.expiresAt, false);
      var _ :- SaveRow(id, row, f(0));
      ghost var staged := Durable();
      var result := WriteSecret(id, Secret(tokens.access, tokens.refresh), f(1));
      ghost var disks := if result.Ok? then [staged, Durable()] else [staged];
      assert seen == start + disks;
      if result.Ok? { result := CheckAttempt(attempt, after); }
      if result.Ok? { result := SaveRow(id, row.(connected := true), f(2)); }
      if result.Err? {
        r := RollbackStaged(id, result.error, f, start, disks);
        return;
      }
      if life.pending.Some? && life.pending.value.id == attempt { life := Terminal(life, Connected); }
      return Ok(());
    }

    method BeginRefresh(id: Id, generation: Id) returns (r: Result<(), Error>)
      modifies this
      ensures Did(Connectors.BeginRefresh(old(Now()), id, generation), old(seen), r)
    {
      if id !in rows || !rows[id].connected { return Err(NotFound); }
      if id !in secrets || secrets[id].refresh.None? { return Err(Credential); }
      if id in life.refreshes { return Err(Busy); }
      life := life.(refreshes := life.refreshes[id := generation]);
      issued := issued + {generation};
      return Ok(());
    }

    method CommitRefresh(id: Id, generation: Id, previous: nat, tokens: Tokens, f: Faults)
      returns (r: Result<(), Error>)
      modifies this
      ensures Did(Connectors.CommitRefresh(old(Now()), id, generation, previous, tokens, f), old(seen), r)
    {
      hide Granted, Undo;
      ghost var start := seen;
      if !(id in life.refreshes && life.refreshes[id] == generation) { return Err(Stale); }
      if id !in rows || !rows[id].connected { return Err(Stale); }
      var scopes := Granted(tokens.scope, rows[id].scopes, true);
      if scopes.None? {
        var _ :- MarkDisconnected(id, f(0));
        r := RollbackStaged(id, Scope, f, start, [Durable()]);
        return;
      }
      var row := Row(scopes.value, tokens.expiresAt, false);
      var _ :- SaveRow(id, row, f(0));
      var refresh := if tokens.refresh.Some? then tokens.refresh else Some(previous);
      ghost var staged := Durable();
      var result := WriteSecret(id, Secret(tokens.access, refresh), f(1));
      ghost var disks := if result.Ok? then [staged, Durable()] else [staged];
      assert seen == start + disks;
      if result.Ok? { result := SaveRow(id, row.(connected := true), f(2)); }
      if result.Err? {
        r := RollbackStaged(id, result.error, f, start, disks);
        return;
      }
      FinishRefresh(id, generation);
      return Ok(());
    }

    method Disconnect(id: Id, f: Faults) returns (r: Result<(), Error>)
      modifies this
      ensures Did(Connectors.Disconnect(old(Now()), id, f), old(seen), r)
    {
      life := life.(refreshes := life.refreshes - {id});
      var marked := MarkDisconnected(id, f(0));
      if marked.Err? { return Err(Unconfirmed); }
      var removed := RemoveSecret(id, f(1));
      if removed.Err? { return Err(if marked.value then Cleanup else Credential); }
      var deleted := DeleteRow(id, f(2));
      if deleted.Err? { return Err(Cleanup); }
      return if marked.value then Ok(()) else Err(NotFound);
    }
  }
}
