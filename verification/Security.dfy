/** The security service: it completes and appends audit entries, and runs row writes
    together with them. */
module Security {
  import opened Outcomes
  import opened Statuses
  import opened Records
  import opened Transactions
  import opened Handlers
  import opened Versions
  import opened Reachability
  import opened Faults
  import opened Storage

  /** What a handler does to the stored records: nothing if it refuses the request,
      else one transaction with the statements of its plan. */
  ghost function Attempted(db: Db, req: Request, caller: Caller, id: nat, faults: Oracle, n: nat): Result<Db> {
    match Plan(req, caller, id, ReadAll(db, req))
    case Err(e) => Err(e)
    case Ok(blocks) => Transact(db, Steps(blocks), faults, n)
  }

  /** A handler that ran by itself. */
  ghost predicate Handled(before: Db, after: Db, req: Request, caller: Caller, id: nat, faults: Oracle, n: nat,
      e: Option<Error>) {
    Concluded(before, after, Attempted(before, req, caller, id, faults, n), e)
  }

  function ErrorOf<T>(r: Result<T>): Option<Error> {
    match r
    case Ok(_) => None
    case Err(e) => Some(e)
  }

  /** A handler with faults is the one-step handler, or has failed and changed
      nothing: it does all of its writes, its commit included, or none of them. */
  lemma HandlerIsAllOrNothing(before: Db, after: Db, req: Request, caller: Caller, id: nat, faults: Oracle, n: nat,
      e: Option<Error>)
    requires Handled(before, after, req, caller, id, faults, n, e)
    ensures e.Some? ==> after == before
    ensures e.None? ==> Atomic(before, req, caller, id) == Ok(after)
    ensures match Plan(req, caller, id, ReadAll(before, req))
            case Err(x) => e == Some(x)
            case Ok(blocks) =>
              if Clear(faults, n, n + |Steps(blocks)| + 1) then e == ErrorOf(Atomic(before, req, caller, id))
              else e.Some?
  {
    match Plan(req, caller, id, ReadAll(before, req))
    case Err(_) =>
    case Ok(blocks) => AllOrNothing(before, blocks, faults, n);
  }

  lemma OneBlockSteps(b: Block)
    ensures Steps([b]) == StepsOf(b)
  {
    assert [b][1..] == [];
    assert StepsOf(b) + [] == StepsOf(b);
  }

  /** After a transaction that saved row `k` first, reading `k` finds the row. */
  lemma SavedRowIsFound(before: Db, after: Db, blocks: seq<Block>, faults: Oracle, n: nat)
    requires Transact(before, Steps(blocks), faults, n) == Ok(after)
    requires blocks != [] && DistinctKeys(blocks) && blocks[0].write.Save?
    ensures LiveAt(after, blocks[0].key)
  {
    AllOrNothing(before, blocks, faults, n);
    RowAfter(before, blocks, 0);
  }

  lemma FirstRowIsFound(before: Db, after: Db, req: Request, caller: Caller, id: nat, blocks: seq<Block>,
      faults: Oracle, n: nat)
    requires Plan(req, caller, id, ReadAll(before, req)) == Ok(blocks) && Typed(ReadAll(before, req)) && blocks != []
    requires Transact(before, Steps(blocks), faults, n) == Ok(after) && blocks[0].write.Save?
    ensures LiveAt(after, blocks[0].key)
  {
    PlanDocumented(req, caller, id, ReadAll(before, req));
    SavedRowIsFound(before, after, blocks, faults, n);
  }

  /** Every request but a creation needs its row. */
  lemma MissingRowRefused(db: Db, req: Request, caller: Caller, id: nat)
    requires !req.Create?
    ensures Get(db, req.key).None? ==> Plan(req, caller, id, ReadAll(db, req)) == Err(NotFound)
  {
  }

  lemma CreatedRow(before: Db, after: Db, b: Block, faults: Oracle, n: nat)
    requires Transact(before, Steps([b]), faults, n) == Ok(after) && b.write.Insert?
    ensures after.rows == before.rows[b.key := b.write.row]
  {
    AllOrNothing(before, [b], faults, n);
    assert [b][1..] == [];
    assert ApplyAll(before, [b]) == ApplyBlock(before, b);
  }

  lemma TwoBlockSteps(a: Block, b: Block)
    ensures Steps([a, b]) == StepsOf(a) + StepsOf(b)
  {
    assert [a, b][1..] == [b];
    OneBlockSteps(b);
  }

  /** A conditional update that the security service logs. */
  function SaveBlock(key: Key, expected: nat, row: Row, caller: Caller, action: string, before: Status,
      detail: string): Block {
    Block(key, Save(expected, row), None, Logged(key, action, caller, At(before), At(row.status), detail))
  }

  class SecurityService {
    const store: Database

    constructor (store: Database)
      ensures this.store == store
    {
      this.store := store;
    }

    /** Fills in a missing actor and request, and refuses an entry without action. */
    method Audit(caller: Caller, action: string, key: Key, before: Mark, after: Mark, detail: string)
      returns (e: Option<Error>)
      requires store.Valid()
      modifies store`audits, store`writes
      ensures store.Valid()
      ensures action == "" ==>
        e == Some(AuditRejected) && store.View() == old(store.View()) && store.writes == old(store.writes)
      ensures action != "" ==>
        && store.writes == old(store.writes) + 1
        && Tried(old(store.View()), store.View(), OfAudit(Logged(key, action, caller, before, after, detail)),
                 store.faults(old(store.writes)), e)
    {
      var actor, requestId := caller.actor, caller.requestId;
      if actor == "" { actor := "system"; }
      if requestId == "" { requestId := "untracked"; }
      if action == "" { return Some(AuditRejected); }
      e := store.AppendAudit(Records.Audit(key, action, actor, requestId, before, after, detail));
    }

    /** A new row and its audit entry, inside a transaction. */
    method InsertThenAudit(kind: Kind, row: Row, caller: Caller) returns (id: nat, e: Option<Error>)
      requires store.Valid()
      modifies store`rows, store`audits, store`nextId, store`writes
      ensures store.Valid() && id == old(store.nextId)
      ensures var steps := StepsOf(CreateBlock(Key(kind, id), row, caller));
              && Done(old(store.View()), store.View(), steps, |steps|, store.faults, old(store.writes), e)
              && (e.None? ==> store.writes == old(store.writes) + |steps|)
    {
      ghost var start, n := store.View(), store.writes;
      ghost var steps := StepsOf(CreateBlock(Key(kind, store.nextId), row, caller));
      NothingDone(start, steps, store.faults, n);
      hide Label, Perform, Attempt, Tried, Done, Database.Valid, Database.View;
      id, e := store.Create(kind, row);
      Step(start, start, store.View(), steps, 0, store.faults, n, e);
      if e.Some? { return; }
      ghost var mid := store.View();
      e := Audit(caller, "create", Key(kind, id), Absent, At(row.status), "created " + Label(kind));
      Step(start, mid, store.View(), steps, 1, store.faults, n, e);
    }

    /** A new row and its audit entry, together or not at all. */
    method Created(kind: Kind, row: Row, caller: Caller) returns (id: nat, e: Option<Error>)
      requires store.Idle()
      modifies store
      ensures store.Idle() && id == old(store.nextId)
      ensures Concluded(old(store.View()), store.View(),
                      Transact(old(store.View()), Steps([CreateBlock(Key(kind, id), row, caller)]), store.faults,
                          old(store.writes)), e)
    {
      ghost var start, n := store.View(), store.writes;
      OneBlockSteps(CreateBlock(Key(kind, store.nextId), row, caller));
      hide Steps, StepsOf, Label, Transact, Done, Ended, Concluded, Database.Valid, Database.View;
      store.Begin();
      id, e := InsertThenAudit(kind, row, caller);
      ghost var inside, d, m := store.View(), e, store.writes;
      e := store.Finish(e);
      Conclude(false, start, inside, store.View(), StepsOf(CreateBlock(Key(kind, id), row, caller)), store.faults, n,
          m, d, e);
    }

    /** A conditional update and its audit entry, inside a transaction. */
    method UpdateThenAudit(key: Key, expected: nat, row: Row, caller: Caller, action: string, before: Status,
        detail: string)
      returns (e: Option<Error>)
      requires store.Valid() && action != ""
      modifies store`rows, store`audits, store`writes
      ensures store.Valid()
      ensures var steps := StepsOf(SaveBlock(key, expected, row, caller, action, before, detail));
              && Done(old(store.View()), store.View(), steps, |steps|, store.faults, old(store.writes), e)
              && (e.None? ==> store.writes == old(store.writes) + |steps|)
    {
      ghost var start, n := store.View(), store.writes;
      ghost var steps := StepsOf(SaveBlock(key, expected, row, caller, action, before, detail));
      NothingDone(start, steps, store.faults, n);
      hide Label, Perform, Attempt, Tried, Done, Database.Valid, Database.View;
      e := store.Update(key, expected, row);
      Step(start, start, store.View(), steps, 0, store.faults, n, e);
      if e.Some? { return; }
      ghost var mid := store.View();
      e := Audit(caller, action, key, At(before), At(row.status), detail);
      Step(start, mid, store.View(), steps, 1, store.faults, n, e);
    }

    /** Edited columns and their audit entry, together or not at all. */
    method Updated(key: Key, expected: nat, row: Row, caller: Caller) returns (e: Option<Error>)
      requires store.Idle()
      modifies store
      ensures store.Idle()
      ensures Concluded(old(store.View()), store.View(),
                      Transact(old(store.View()), Steps([UpdateBlock(key, expected, row, caller)]), store.faults,
                          old(store.writes)), e)
    {
      ghost var start, n := store.View(), store.writes;
      ghost var b := UpdateBlock(key, expected, row, caller);
      OneBlockSteps(b);
      hide Steps, StepsOf, Label, Transact, Done, Ended, Concluded, Database.Valid, Database.View;
      store.Begin();
      e := UpdateThenAudit(key, expected, row.(version := expected + 1), caller, "update", row.status,
          "updated business fields");
      ghost var inside, d, m := store.View(), e, store.writes;
      e := store.Finish(e);
      Conclude(false, start, inside, store.View(), StepsOf(b), store.faults, n, m, d, e);
    }

    /** A soft delete and its audit entry, inside a transaction. */
    method DeleteThenAudit(key: Key, current: Row, caller: Caller) returns (e: Option<Error>)
      requires store.Valid()
      modifies store`rows, store`audits, store`writes
      ensures store.Valid()
      ensures var steps := StepsOf(DeleteBlock(key, current, caller));
              && Done(old(store.View()), store.View(), steps, |steps|, store.faults, old(store.writes), e)
              && (e.None? ==> store.writes == old(store.writes) + |steps|)
    {
      ghost var start, n, steps := store.View(), store.writes, StepsOf(DeleteBlock(key, current, caller));
      NothingDone(start, steps, store.faults, n);
      hide Label, Perform, Attempt, Tried, Done, Database.Valid, Database.View;
      e := store.Delete(key);
      Step(start, start, store.View(), steps, 0, store.faults, n, e);
      if e.Some? { return; }
      ghost var mid := store.View();
      e := Audit(caller, "delete", key, At(current.status), Gone, "soft deleted " + Label(key.kind));
      Step(start, mid, store.View(), steps, 1, store.faults, n, e);
    }

    /** A soft delete and its audit entry, together or not at all. */
    method Deleted(key: Key, current: Row, caller: Caller) returns (e: Option<Error>)
      requires store.Idle()
      modifies store
      ensures store.Idle()
      ensures Concluded(old(store.View()), store.View(),
                      Transact(old(store.View()), Steps([DeleteBlock(key, current, caller)]), store.faults,
                          old(store.writes)), e)
    {
      ghost var start, n := store.View(), store.writes;
      OneBlockSteps(DeleteBlock(key, current, caller));
      hide Steps, StepsOf, Label, Transact, Done, Ended, Concluded, Database.Valid, Database.View;
      store.Begin();
      e := DeleteThenAudit(key, current, caller);
      ghost var inside, d, m := store.View(), e, store.writes;
      e := store.Finish(e);
      Conclude(false, start, inside, store.View(), StepsOf(DeleteBlock(key, current, caller)), store.faults, n, m, d,
          e);
    }

    /** A linked row moves under the version it was read with, inside a transaction. */
    method MoveLinked(linked: Found, to: Status, action: string, caller: Caller, reason: string)
        returns (e: Option<Error>)
      requires store.Valid() && action != ""
      modifies store`rows, store`audits, store`writes
      ensures store.Valid()
      ensures var steps := StepsOf(LinkedBlock(linked, to, action, caller, reason));
              && Done(old(store.View()), store.View(), steps, |steps|, store.faults, old(store.writes), e)
              && (e.None? ==> store.writes == old(store.writes) + |steps|)
    {
      var row := linked.row;
      var before := row.status;
      row := row.(status := to);
      row := row.(version := row.version + 1);
      e := UpdateThenAudit(linked.key, row.version - 1, row, caller, action, before, reason);
    }
  }
}
