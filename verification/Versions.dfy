/** Optimistic locking, with no assumption on the versions clients send: a row's
    version identifies its content, and counts its audit entries. */
module Versions {
  import opened Statuses
  import opened Text
  import opened Records
  import opened Transactions
  import opened Handlers

  // ------------------------------------------------------------------- relations

  /** `b` is the same row as `a`, at the same or a later time: an equal version
      means equal content up to the soft-delete mark, and a tombstone never changes. */
  predicate Newer(a: Row, b: Row) {
    && a.code == b.code
    && a.version <= b.version
    && (a.version == b.version ==> b == a.(deleted := b.deleted))
    && (a.deleted ==> b == a)
  }

  predicate Grows(a: Db, b: Db) {
    && (forall k :: k in a.rows ==> k in b.rows && Newer(a.rows[k], b.rows[k]))
    && a.approvals <= b.approvals
    && a.audits <= b.audits
  }

  lemma GrowsTransitive(a: Db, b: Db, c: Db)
    requires Grows(a, b) && Grows(b, c)
    ensures Grows(a, c)
  {
    forall k | k in a.rows ensures k in c.rows && Newer(a.rows[k], c.rows[k]) {
      assert k in b.rows;
    }
  }

  // --------------------------------------------------------------- what plans look like

  /** A block's audit entry names its row and its new state, and its row write
      advances the version by one. */
  predicate Documented(b: Block) {
    && b.audit.key == b.key
    && match b.write
       case Insert(row) => row.version == 1 && !row.deleted && b.audit.before == Absent
           && b.audit.after == At(row.status)
       case Save(expected, row) => row.version == expected + 1 && b.audit.before.At? && b.audit.after == At(row.status)
       case Remove => b.audit.after == Gone
  }

  predicate DistinctKeys(blocks: seq<Block>) {
    forall i, j :: 0 <= i < j < |blocks| ==> blocks[i].key != blocks[j].key
  }

  /** Directives and gates are read from their own tables. */
  predicate Typed(read: Reads) {
    && (read.directive.Some? ==> read.directive.value.key.kind == OperationDirective)
    && (read.gate.Some? ==> read.gate.value.key.kind == GateUnit)
  }

  /** A plan is one to three blocks on different rows, each of them documented. */
  predicate WellPlanned(blocks: seq<Block>) {
    1 <= |blocks| <= 3 && DistinctKeys(blocks) && forall i :: 0 <= i < |blocks| ==> Documented(blocks[i])
  }

  lemma OneBlock(b: Block)
    requires Documented(b)
    ensures WellPlanned([b])
  {
  }

  lemma PlanDocumented(req: Request, caller: Caller, id: nat, read: Reads)
    requires Typed(read) && Plan(req, caller, id, read).Ok?
    ensures WellPlanned(Plan(req, caller, id, read).value)
  {
    hide PlanDirectiveTransition, PlanConfirmationTransition, WellPlanned;
    if req.Transition? && req.key.kind == OperationDirective {
      DirectiveTransitionDocumented(req, caller, read.primary.value, read);
    } else if req.Transition? && req.key.kind == ExecutionConfirmation {
      ConfirmationTransitionDocumented(req, caller, read.primary.value, read);
    } else {
      SinglePlanned(req, caller, id, read);
      OneBlock(Plan(req, caller, id, read).value[0]);
    }
  }

  /** Every other request is planned as one block. */
  lemma SinglePlanned(req: Request, caller: Caller, id: nat, read: Reads)
    requires Plan(req, caller, id, read).Ok? && (req.Transition? ==> req.key.kind == GateUnit)
    ensures var blocks := Plan(req, caller, id, read).value; blocks == [blocks[0]] && Documented(blocks[0])
  {
    hide Tidy, CopyFrom, ValidFields, TrimSpace, Canon, EqualFold;
  }

  lemma LinkedDocumented(linked: Found, to: Status, action: string, caller: Caller, reason: string)
    ensures Documented(LinkedBlock(linked, to, action, caller, reason))
    ensures LinkedBlock(linked, to, action, caller, reason).key == linked.key
  {
  }

  lemma DirectiveTransitionDocumented(req: Request, caller: Caller, current: Row, read: Reads)
    requires req.Transition? && req.key.kind == OperationDirective && Typed(read)
    requires PlanDirectiveTransition(req, caller, current, read).Ok?
    ensures WellPlanned(PlanDirectiveTransition(req, caller, current, read).value)
  {
    hide TrimSpace, EqualFold;
  }

  lemma ConfirmationTransitionDocumented(req: Request, caller: Caller, current: Row, read: Reads)
    requires req.Transition? && req.key.kind == ExecutionConfirmation && Typed(read)
    requires PlanConfirmationTransition(req, caller, current, read).Ok?
    ensures WellPlanned(PlanConfirmationTransition(req, caller, current, read).value)
  {
    var blocks := PlanConfirmationTransition(req, caller, current, read).value;
    var own := ConfirmationBlock(req, caller, current, Parse(TrimSpace(req.target)).value);
    if |blocks| == 1 {
      OneBlock(own);
    } else {
      LinkedDocumented(read.directive.value, blocks[1].write.row.status, "execution_outcome", caller, req.reason);
      if |blocks| == 3 {
        LinkedDocumented(read.gate.value, blocks[2].write.row.status, "execution_outcome", caller, req.reason);
      }
    }
  }

  // ------------------------------------------------------------------ conservation

  function VersionOf(db: Db, k: Key): nat {
    if k in db.rows then db.rows[k].version else 0
  }

  /** The number of entries for `k` that do not record a deletion. */
  function Advances(audits: seq<Audit>, k: Key): nat {
    if audits == [] then 0
    else
      var last := audits[|audits| - 1];
      Advances(audits[..|audits| - 1], k) + if last.key == k && last.after != Gone then 1 else 0
  }

  /** The number of entries for `k`. */
  function Entries(audits: seq<Audit>, k: Key): nat {
    if audits == [] then 0
    else Entries(audits[..|audits| - 1], k) + if audits[|audits| - 1].key == k then 1 else 0
  }

  lemma {:induction false} CountsAppend(a: seq<Audit>, b: seq<Audit>, k: Key)
    ensures Advances(a + b, k) == Advances(a, k) + Advances(b, k)
    ensures Entries(a + b, k) == Entries(a, k) + Entries(b, k)
    decreases |b|
  {
    if b == [] {
      assert a + b == a;
    } else {
      var init := b[..|b| - 1];
      assert (a + b)[..|a + b| - 1] == a + init;
      CountsAppend(a, init, k);
    }
  }

  lemma CountsPush(a: seq<Audit>, e: Audit, k: Key)
    ensures Advances(a + [e], k) == Advances(a, k) + if e.key == k && e.after != Gone then 1 else 0
    ensures Entries(a + [e], k) == Entries(a, k) + if e.key == k then 1 else 0
  {
    assert (a + [e])[..|a + [e]| - 1] == a;
  }

  lemma BlockConserves(db: Db, b: Block, k: Key)
    requires Documented(b) && ApplyBlock(db, b).Ok?
    ensures var next := ApplyBlock(db, b).value;
            && next.audits == db.audits + [b.audit]
            && VersionOf(next, k) - VersionOf(db, k) == Advances(next.audits, k) - Advances(db.audits, k)
            && (k in next.rows && k !in db.rows <==> k == b.key && b.write.Insert?)
            && (k != b.key && k in db.rows ==> k in next.rows && next.rows[k] == db.rows[k])
            && (k == b.key ==>
                  && k in next.rows
                  && (k in db.rows ==> next.rows[k] != db.rows[k] && Newer(db.rows[k], next.rows[k])))
  {
    hide LinkTaken, CodeTaken, LinkHeldByOther, StageTaken;
    CountsPush(db.audits, b.audit, k);
  }

  lemma BlockGrows(db: Db, b: Block)
    requires Documented(b) && ApplyBlock(db, b).Ok?
    ensures Grows(db, ApplyBlock(db, b).value)
  {
    var next := ApplyBlock(db, b).value;
    forall k | k in db.rows ensures k in next.rows && Newer(db.rows[k], next.rows[k]) {
      BlockConserves(db, b, k);
    }
  }

  predicate WritesKey(blocks: seq<Block>, k: Key) {
    exists i :: 0 <= i < |blocks| && blocks[i].key == k
  }

  /** Whether `k` was created, updated or deleted between two states. */
  predicate Touched(a: Db, b: Db, k: Key) {
    k in b.rows && (k in a.rows ==> b.rows[k] != a.rows[k])
  }

  /** A transaction writes exactly the rows of its blocks, and logs each of them once. */
  lemma {:induction false} TransactionConserves(db: Db, blocks: seq<Block>, k: Key)
    requires DistinctKeys(blocks) && (forall i :: 0 <= i < |blocks| ==> Documented(blocks[i]))
    requires ApplyAll(db, blocks).Ok?
    ensures var next := ApplyAll(db, blocks).value;
            && Grows(db, next)
            && VersionOf(next, k) - VersionOf(db, k) == Advances(next.audits, k) - Advances(db.audits, k)
            && Entries(next.audits, k) == Entries(db.audits, k) + (if WritesKey(blocks, k) then 1 else 0)
            && (WritesKey(blocks, k) <==> k in next.rows && (k !in db.rows || next.rows[k] != db.rows[k]))
    decreases |blocks|
  {
    if blocks == [] {
    } else {
      var b, rest := blocks[0], blocks[1..];
      var mid := ApplyBlock(db, b).value;
      forall i | 0 <= i < |rest| ensures Documented(rest[i]) { assert rest[i] == blocks[i + 1]; }
      assert DistinctKeys(rest) by {
        forall i, j | 0 <= i < j < |rest| ensures rest[i].key != rest[j].key {
          assert blocks[i + 1].key != blocks[j + 1].key;
        }
      }
      BlockConserves(db, b, k);
      BlockGrows(db, b);
      CountsPush(db.audits, b.audit, k);
      TransactionConserves(mid, rest, k);
      var next := ApplyAll(mid, rest).value;
      GrowsTransitive(db, mid, next);
      assert WritesKey(blocks, k) <==> k == b.key || WritesKey(rest, k) by { WritesKeySplit(blocks, k); }
      if k == b.key { HeadKeyOnce(blocks, k); }
    }
  }

  /** The entries of a plan, in order. */
  function EntriesOf(blocks: seq<Block>): seq<Audit> {
    seq(|blocks|, i requires 0 <= i < |blocks| => blocks[i].audit)
  }

  /** A transaction appends exactly the entries of its blocks, in order. */
  lemma {:induction false} TransactionLogs(db: Db, blocks: seq<Block>)
    requires ApplyAll(db, blocks).Ok?
    ensures ApplyAll(db, blocks).value.audits == db.audits + EntriesOf(blocks)
    decreases |blocks|
  {
    if blocks == [] {
    } else {
      TransactionLogs(ApplyBlock(db, blocks[0]).value, blocks[1..]);
      assert EntriesOf(blocks) == [blocks[0].audit] + EntriesOf(blocks[1..]);
    }
  }

  function Entered(b: Block): seq<Approval> {
    if b.approval.Some? then [b.approval.value] else []
  }

  lemma BlockApprovals(db: Db, b: Block)
    requires ApplyBlock(db, b).Ok?
    ensures ApplyBlock(db, b).value.approvals == db.approvals + Entered(b)
  {
  }

  /** The ledger entries of a plan, in order. */
  function ApprovalsOf(blocks: seq<Block>): seq<Approval>
    decreases |blocks|
  {
    if blocks == [] then []
    else Entered(blocks[0]) + ApprovalsOf(blocks[1..])
  }

  lemma Associates<T>(a: seq<T>, b: seq<T>, c: seq<T>)
    ensures (a + b) + c == a + (b + c)
  {
  }

  lemma {:induction false} TransactionEnters(db: Db, blocks: seq<Block>)
    requires ApplyAll(db, blocks).Ok?
    ensures ApplyAll(db, blocks).value.approvals == db.approvals + ApprovalsOf(blocks)
    decreases |blocks|
  {
    if blocks == [] {
    } else {
      BlockApprovals(db, blocks[0]);
      hide ApplyBlock, Entered;
      var next, rest := ApplyBlock(db, blocks[0]).value, blocks[1..];
      TransactionEnters(next, rest);
      Associates(db.approvals, Entered(blocks[0]), ApprovalsOf(rest));
    }
  }

  lemma WritesKeySplit(blocks: seq<Block>, k: Key)
    requires blocks != []
    ensures WritesKey(blocks, k) <==> k == blocks[0].key || WritesKey(blocks[1..], k)
  {
    if WritesKey(blocks, k) {
      var i :| 0 <= i < |blocks| && blocks[i].key == k;
      if i > 0 { assert blocks[1..][i - 1].key == k; }
    }
    if WritesKey(blocks[1..], k) {
      var i :| 0 <= i < |blocks[1..]| && blocks[1..][i].key == k;
      assert blocks[i + 1].key == k;
    }
  }

  lemma HeadKeyOnce(blocks: seq<Block>, k: Key)
    requires blocks != [] && DistinctKeys(blocks) && blocks[0].key == k
    ensures !WritesKey(blocks[1..], k)
  {
    forall i | 0 <= i < |blocks[1..]| ensures blocks[1..][i].key != k {
      assert blocks[0].key != blocks[i + 1].key;
    }
  }
}
