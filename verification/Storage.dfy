/** The database as the repositories drive it: tables that change in place, nested
    transactions with rollback, and writes that may fail. */
module Storage {
  import opened Outcomes
  import opened Text
  import opened Records
  import opened Transactions
  import opened Validity
  import opened Faults

  /** What one attempted write does to the stored records. */
  predicate Tried(before: Db, after: Db, w: Write, fault: bool, e: Option<Error>) {
    match if fault then Err(WriteFailed) else Attempt(before, w)
    case Ok(next) => e.None? && after == next
    case Err(x) => e == Some(x) && after == before
  }

  /** How a transaction whose body returned `d` ends: only the outermost one commits,
      which may fail, and an error restores the state saved at its start. */
  predicate Ended(saved: Db, inside: Db, after: Db, nested: bool, fault: bool, d: Option<Error>, e: Option<Error>) {
    && e == (if d.None? && !nested && fault then Some(WriteFailed) else d)
    && after == if e.None? then inside else saved
  }

  /** The unique indexes hold, and the primary-key sequence is ahead of every key. */
  predicate Consistent(db: Db, nextId: nat) {
    Unique(db) && forall k :: k in db.rows ==> k.id < nextId
  }

  lemma AttemptKeepsConsistent(db: Db, w: Write, nextId: nat)
    requires Consistent(db, nextId) && Attempt(db, w).Ok? && (w.OfRow? ==> w.key.id < nextId)
    ensures Consistent(Attempt(db, w).value, nextId)
  {
    if w.OfRow? { WriteKeepsUnique(db, w.key, w.write); }
  }

  lemma LiveIff(db: Db, code: string, k: Key)
    requires k in db.rows
    ensures k in LiveConfirmations(db, code) <==>
            k.kind == ExecutionConfirmation && !db.rows[k].deleted && db.rows[k].business.relatedCode == Canon(code)
  {
  }

  lemma CountOne<T>(live: set<T>, keys: set<T>, k: T)
    requires k in keys
    ensures |live - (keys - {k})| == |live - keys| + if k in live then 1 else 0
  {
    assert live - (keys - {k}) == (live - keys) + if k in live then {k} else {};
  }

  lemma NoneCounted<T>(live: set<T>, keys: set<T>)
    requires live <= keys
    ensures |live - keys| == 0
  {
    assert live - keys == {};
  }

  lemma AtMostOneConfirmation(db: Db, code: string)
    requires Unique(db)
    ensures |LiveConfirmations(db, code)| <= 1
    ensures LiveConfirmations(db, code) <= db.rows.Keys
    ensures LiveConfirmations(db, code) != {} ==> LinkTaken(db.rows, Canon(code))
  {
    var live := LiveConfirmations(db, code);
    if k :| k in live {
      assert live == {k};
    }
  }

  class Database {
    var rows: map<Key, Row>
    var approvals: seq<Approval>
    var audits: seq<Audit>
    var savepoints: seq<Db>  // what each open transaction restores, outermost first
    var nextId: nat          // the next primary key; a rollback does not give one back
    var writes: nat          // writes and commits attempted so far
    const faults: Oracle

    function View(): Db
      reads this
    {
      Db(rows, approvals, audits)
    }

    predicate Valid()
      reads this
    {
      Consistent(View(), nextId) && forall i :: 0 <= i < |savepoints| ==> Consistent(savepoints[i], nextId)
    }

    /** No transaction is open. */
    predicate Idle()
      reads this
    {
      Valid() && savepoints == []
    }

    constructor (faults: Oracle)
      ensures Idle() && View() == Db(map[], [], [])
      ensures this.faults == faults
    {
      rows, approvals, audits, savepoints, nextId, writes := map[], [], [], [], 1, 0;
      this.faults := faults;
    }

    // ------------------------------------------------------------------- reading

    method Get(key: Key) returns (found: Option<Row>)
      ensures found == Records.Get(View(), key)
    {
      found := if key in rows && !rows[key].deleted then Some(rows[key]) else None;
    }

    method GetByCode(kind: Kind, code: string) returns (found: Option<Found>)
      requires Valid()
      ensures found == Records.GetByCode(View(), kind, code)
    {
      if k :| k in rows && k.kind == kind && !rows[k].deleted && rows[k].code == Canon(code) {
        assert HasCode(View(), k, kind, code);
        found := Some(Found(k, rows[k]));
      } else {
        found := None;
      }
    }

    /** Counts the live confirmations of a directive code. The unique index leaves room
        for one, and a count above zero means that it would refuse another. */
    method CountByDirectiveCode(code: string) returns (count: nat)
      requires Valid()
      ensures count == |LiveConfirmations(View(), code)|
      ensures count <= 1
      ensures count > 0 ==> LinkTaken(rows, Canon(code))
    {
      ghost var db := View();
      ghost var live := LiveConfirmations(db, code);
      AtMostOneConfirmation(db, code);
      hide LiveConfirmations, LinkTaken, Canon, Valid, View;
      count := 0;
      var keys := rows.Keys;
      NoneCounted(live, keys);
      while keys != {}
        invariant keys <= rows.Keys && count == |live - keys|
        decreases |keys|
      {
        var k :| k in keys;
        LiveIff(db, code, k);
        CountOne(live, keys, k);
        keys := keys - {k};
        if k.kind == ExecutionConfirmation && !rows[k].deleted && rows[k].business.relatedCode == Canon(code) {
          count := count + 1;
        }
      }
      assert live - {} == live;
    }

    // -------------------------------------------------------------- single writes

    method Fails() returns (fault: bool)
      modifies this`writes
      ensures fault == faults(old(writes)) && writes == old(writes) + 1
    {
      fault := faults(writes);
      writes := writes + 1;
    }

    method Create(kind: Kind, row: Row) returns (id: nat, e: Option<Error>)
      requires Valid()
      modifies this`rows, this`nextId, this`writes
      ensures Valid()
      ensures id == old(nextId) && nextId == id + 1 && writes == old(writes) + 1
      ensures Tried(old(View()), View(), OfRow(Key(kind, id), Insert(row)), faults(old(writes)), e)
    {
      id := nextId;
      nextId := nextId + 1;
      ghost var w := OfRow(Key(kind, id), Insert(row));
      if Attempt(View(), w).Ok? { AttemptKeepsConsistent(View(), w, nextId); }
      var fault := Fails();
      if fault {
        e := Some(WriteFailed);
      } else if CodeTaken(rows, kind, row.code)
                || (kind == ExecutionConfirmation && LinkTaken(rows, row.business.relatedCode)) {
        e := Some(DuplicateKey);
      } else {
        rows := rows[Key(kind, id) := row];
        e := None;
      }
    }

    /** The conditional update: it reaches a live row of the expected version only. */
    method Update(key: Key, expected: nat, row: Row) returns (e: Option<Error>)
      requires Valid()
      modifies this`rows, this`writes
      ensures Valid() && writes == old(writes) + 1
      ensures Tried(old(View()), View(), OfRow(key, Save(expected, row)), faults(old(writes)), e)
    {
      ghost var w := OfRow(key, Save(expected, row));
      if Attempt(View(), w).Ok? { AttemptKeepsConsistent(View(), w, nextId); }
      var fault := Fails();
      if fault {
        e := Some(WriteFailed);
      } else if key !in rows || rows[key].deleted || rows[key].version != expected {
        e := Some(VersionConflict);
      } else if key.kind == ExecutionConfirmation && LinkHeldByOther(rows, key, row.business.relatedCode) {
        e := Some(DuplicateKey);
      } else {
        rows := rows[key := row.(code := rows[key].code, deleted := false)];
        e := None;
      }
    }

    method Delete(key: Key) returns (e: Option<Error>)
      requires Valid()
      modifies this`rows, this`writes
      ensures Valid() && writes == old(writes) + 1
      ensures Tried(old(View()), View(), OfRow(key, Remove), faults(old(writes)), e)
    {
      ghost var w := OfRow(key, Remove);
      if Attempt(View(), w).Ok? { AttemptKeepsConsistent(View(), w, nextId); }
      var fault := Fails();
      if fault {
        e := Some(WriteFailed);
      } else if key !in rows || rows[key].deleted {
        e := Some(NotFound);
      } else {
        rows := rows[key := rows[key].(deleted := true)];
        e := None;
      }
    }

    method CreateApproval(approval: Approval) returns (e: Option<Error>)
      requires Valid()
      modifies this`approvals, this`writes
      ensures Valid() && writes == old(writes) + 1
      ensures Tried(old(View()), View(), OfApproval(approval), faults(old(writes)), e)
      ensures !faults(old(writes)) ==>
        (e == Some(DuplicateKey) <==>
         exists i :: 0 <= i < |old(approvals)| && old(approvals)[i].directive == approval.directive
                     && old(approvals)[i].stage == approval.stage)
    {
      var fault := Fails();
      if fault {
        e := Some(WriteFailed);
      } else if StageTaken(approvals, approval) {
        e := Some(DuplicateKey);
      } else {
        approvals := approvals + [approval];
        e := None;
      }
    }

    method AppendAudit(audit: Audit) returns (e: Option<Error>)
      requires Valid()
      modifies this`audits, this`writes
      ensures Valid() && writes == old(writes) + 1
      ensures Tried(old(View()), View(), OfAudit(audit), faults(old(writes)), e)
    {
      var fault := Fails();
      if fault {
        e := Some(WriteFailed);
      } else {
        audits := audits + [audit];
        e := None;
      }
    }

    // --------------------------------------------------------------- transactions

    /** Opens a transaction, or a savepoint inside the one that is open. */
    method Begin()
      requires Valid()
      modifies this`savepoints
      ensures Valid() && View() == old(View()) && savepoints == old(savepoints) + [View()]
    {
      savepoints := savepoints + [View()];
    }

    /** Ends the innermost transaction: an error rolls back to its start, a savepoint
        is released, and the outermost transaction commits. */
    method Finish(e: Option<Error>) returns (r: Option<Error>)
      requires Valid() && savepoints != []
      modifies this`rows, this`approvals, this`audits, this`savepoints, this`writes
      ensures Valid() && savepoints == old(savepoints[..|savepoints| - 1])
      ensures writes == old(writes) + if e.None? && savepoints == [] then 1 else 0
      ensures Ended(old(savepoints[|savepoints| - 1]), old(View()), View(), savepoints != [], faults(old(writes)), e, r)
    {
      var saved := savepoints[|savepoints| - 1];
      savepoints := savepoints[..|savepoints| - 1];
      r := e;
      if e.None? && savepoints == [] {
        var fault := Fails();
        if fault { r := Some(WriteFailed); }
      }
      if r.Some? {
        rows, approvals, audits := saved.rows, saved.approvals, saved.audits;
      }
    }

    /** The body of both transitions. */
    method UpdateThenAudit(key: Key, expected: nat, row: Row, approval: Option<Approval>, audit: Audit)
      returns (e: Option<Error>)
      requires Valid()
      modifies this`rows, this`approvals, this`audits, this`writes
      ensures Valid()
      ensures var steps := StepsOf(Block(key, Save(expected, row), approval, audit));
              && Done(old(View()), View(), steps, |steps|, faults, old(writes), e)
              && (e.None? ==> writes == old(writes) + |steps|)
    {
      ghost var start, n, steps := View(), writes, StepsOf(Block(key, Save(expected, row), approval, audit));
      NothingDone(start, steps, faults, n);
      hide Perform, Attempt, Tried, Done, Valid, View;
      e := Update(key, expected, row);
      Step(start, start, View(), steps, 0, faults, n, e);
      if e.Some? { return; }
      if approval.Some? {
        ghost var mid := View();
        e := CreateApproval(approval.value);
        Step(start, mid, View(), steps, 1, faults, n, e);
        if e.Some? { return; }
      }
      ghost var mid := View();
      e := AppendAudit(audit);
      Step(start, mid, View(), steps, |steps| - 1, faults, n, e);
    }

    /** A row write and its audit entry, together or not at all. */
    method TransitionWithAudit(key: Key, expected: nat, row: Row, audit: Audit) returns (e: Option<Error>)
      requires Valid()
      modifies this`rows, this`approvals, this`audits, this`savepoints, this`writes
      ensures Valid() && savepoints == old(savepoints)
      ensures var steps := StepsOf(Block(key, Save(expected, row), None, audit));
              && Concluded(old(View()), View(), Enclosed(savepoints != [], old(View()), steps, faults, old(writes)), e)
              && (e.None? && savepoints != [] ==> writes == old(writes) + |steps|)
    {
      ghost var start, n, steps := View(), writes, StepsOf(Block(key, Save(expected, row), None, audit));
      hide Done, Ended, Concluded, Enclosed, Valid, View;
      Begin();
      e := UpdateThenAudit(key, expected, row, None, audit);
      ghost var inside, d, m := View(), e, writes;
      e := Finish(e);
      Conclude(savepoints != [], start, inside, View(), steps, faults, n, m, d, e);
    }

    /** A row write, its ledger entry if it has one, and its audit entry, together or
        not at all. */
    method TransitionWithApproval(key: Key, expected: nat, row: Row, approval: Option<Approval>, audit: Audit)
      returns (e: Option<Error>)
      requires Valid()
      modifies this`rows, this`approvals, this`audits, this`savepoints, this`writes
      ensures Valid() && savepoints == old(savepoints)
      ensures var steps := StepsOf(Block(key, Save(expected, row), approval, audit));
              && Concluded(old(View()), View(), Enclosed(savepoints != [], old(View()), steps, faults, old(writes)), e)
              && (e.None? && savepoints != [] ==> writes == old(writes) + |steps|)
    {
      ghost var start, n, steps := View(), writes, StepsOf(Block(key, Save(expected, row), approval, audit));
      hide Done, Ended, Concluded, Enclosed, Valid, View;
      Begin();
      e := UpdateThenAudit(key, expected, row, approval, audit);
      ghost var inside, d, m := View(), e, writes;
      e := Finish(e);
      Conclude(savepoints != [], start, inside, View(), steps, faults, n, m, d, e);
    }
  }

  // ------------------------------------------------------- reasoning about attempts

  /** How a transaction leaves the stored records. */
  predicate Concluded(before: Db, after: Db, outcome: Result<Db>, e: Option<Error>) {
    match outcome
    case Ok(next) => e.None? && after == next
    case Err(x) => e == Some(x) && after == before
  }

  /** A transaction inside another has no commit of its own. */
  function Enclosed(nested: bool, db: Db, writes: seq<Write>, faults: Oracle, n: nat): Result<Db> {
    if nested then Perform(db, writes, faults, n) else Transact(db, writes, faults, n)
  }

  /** After `k` of the steps, the first of them attempt `n`, the state is `now`, or
      the error is `e`; after an error nothing more is attempted. */
  predicate Done(start: Db, now: Db, steps: seq<Write>, k: nat, faults: Oracle, n: nat, e: Option<Error>) {
    if e.None? then k <= |steps| && Perform(start, steps[..k], faults, n) == Ok(now)
    else Perform(start, steps, faults, n) == Err(e.value)
  }

  lemma NothingDone(start: Db, steps: seq<Write>, faults: Oracle, n: nat)
    ensures Done(start, start, steps, 0, faults, n, None)
  {
  }

  lemma Slices<T>(s: seq<T>, k: nat, m: nat)
    requires k <= m <= |s|
    ensures s[..m] == s[..k] + s[k..m] && s == s[..m] + s[m..]
  {
  }

  /** Attempting the steps from `k` up to but not including `m`. */
  lemma Advance(start: Db, before: Db, after: Db, steps: seq<Write>, k: nat, m: nat, faults: Oracle, n: nat,
      e: Option<Error>)
    requires k <= m <= |steps| && Done(start, before, steps, k, faults, n, None)
    requires Concluded(before, after, Perform(before, steps[k..m], faults, n + k), e)
    ensures Done(start, after, steps, m, faults, n, e)
    ensures e.Some? ==> Done(start, after, steps, |steps|, faults, n, e)
  {
    hide Perform;
    Slices(steps, k, m);
    PerformAppend(start, steps[..k], steps[k..m], faults, n);
    if e.Some? { PerformAppend(start, steps[..m], steps[m..], faults, n); }
  }

  lemma OneWrite(before: Db, after: Db, w: Write, faults: Oracle, n: nat, e: Option<Error>)
    requires Tried(before, after, w, faults(n), e)
    ensures Concluded(before, after, Perform(before, [w], faults, n), e)
  {
    assert [w] == [] + [w];
    PerformPush(before, [], w, faults, n);
  }

  /** Attempting one more step. */
  lemma Step(start: Db, before: Db, after: Db, steps: seq<Write>, k: nat, faults: Oracle, n: nat, e: Option<Error>)
    requires k < |steps| && Done(start, before, steps, k, faults, n, None)
    requires Tried(before, after, steps[k], faults(n + k), e)
    ensures Done(start, after, steps, k + 1, faults, n, e)
    ensures e.Some? ==> Done(start, after, steps, |steps|, faults, n, e)
  {
    hide Done;
    OneWrite(before, after, steps[k], faults, n + k, e);
    assert steps[k..k + 1] == [steps[k]];
    Advance(start, before, after, steps, k, k + 1, faults, n, e);
  }

  /** A transaction that has attempted all steps, the last before attempt `m`, ends. */
  lemma Conclude(nested: bool, start: Db, inside: Db, after: Db, steps: seq<Write>, faults: Oracle, n: nat, m: nat,
                 d: Option<Error>, e: Option<Error>)
    requires Done(start, inside, steps, |steps|, faults, n, d) && (d.None? ==> m == n + |steps|)
    requires Ended(start, inside, after, nested, faults(m), d, e)
    ensures Concluded(start, after, Enclosed(nested, start, steps, faults, n), e)
    ensures !nested ==> Concluded(start, after, Transact(start, steps, faults, n), e)
  {
    assert steps[..|steps|] == steps;
  }

  /** Attempting them one after the other. */
  lemma AdvanceDone(start: Db, before: Db, after: Db, steps: seq<Write>, k: nat, m: nat, faults: Oracle, n: nat,
      e: Option<Error>)
    requires k <= m <= |steps| && Done(start, before, steps, k, faults, n, None)
    requires Done(before, after, steps[k..m], m - k, faults, n + k, e)
    ensures Done(start, after, steps, m, faults, n, e)
    ensures e.Some? ==> Done(start, after, steps, |steps|, faults, n, e)
  {
    assert steps[k..m][..m - k] == steps[k..m];
    Advance(start, before, if e.None? then after else before, steps, k, m, faults, n, e);
  }
}
