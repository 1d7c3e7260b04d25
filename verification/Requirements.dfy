/** The terms in which the requirements of the handlers are stated: only stored columns,
    request columns and literal values, none of the functions that decide or store. */
module Requirements {
  import opened Outcomes
  import opened Text
  import opened Statuses
  import opened Records
  import opened Transactions
  import opened Handlers
  import opened Lifecycle
  import opened Validity
  import opened Workflow

  // ------------------------------------------------------------------------- lookups

  predicate Live(db: Db, k: Key) {
    k in db.rows && !db.rows[k].deleted
  }

  /** Live row `k` carries `code`, up to surrounding white space and case. */
  predicate Named(db: Db, kind: Kind, code: string, k: Key) {
    k in db.rows && k.kind == kind && !db.rows[k].deleted && db.rows[k].code == ToUpper(TrimSpace(code))
  }

  /** `found` is the live row that carries `code`, if there is one. */
  ghost predicate Search(db: Db, kind: Kind, code: string, found: Option<Key>) {
    match found
    case Some(k) => Named(db, kind, code, k)
    case None => forall k :: !Named(db, kind, code, k)
  }

  lemma SearchEnds(db: Db, kind: Kind, code: string) returns (found: Option<Key>)
    ensures Search(db, kind, code, found)
  {
    if k :| Named(db, kind, code, k) {
      found := Some(k);
    } else {
      found := None;
    }
  }

  function FoundAt(db: Db, found: Option<Key>): Option<Found>
    requires found.Some? ==> found.value in db.rows
  {
    match found
    case Some(k) => Some(Found(k, db.rows[k]))
    case None => None
  }

  lemma SearchFinds(db: Db, kind: Kind, code: string, found: Option<Key>)
    requires Unique(db) && Search(db, kind, code, found)
    ensures GetByCode(db, kind, code) == FoundAt(db, found)
  {
    match found
    case Some(k) => assert HasCode(db, k, kind, code);
    case None => forall k ensures !(k in db.rows && HasCode(db, k, kind, code)) { assert !Named(db, kind, code, k); }
  }

  /** No row of the table carries `code`, tombstones included. */
  predicate CodeFree(db: Db, kind: Kind, code: string) {
    forall k :: k in db.rows && k.kind == kind ==> db.rows[k].code != ToUpper(TrimSpace(code))
  }

  // ------------------------------------------------------------------------- columns

  predicate Blank(s: string) {
    TrimSpace(s) == ""
  }

  predicate Filled(code: string, input: Business) {
    !Blank(code) && !Blank(input.name) && !Blank(input.facility) && !Blank(input.owner)
  }

  /** The edited columns, with those a record copies from elsewhere given. */
  function Columns(input: Business, facility: string, category: string, riskLevel: string, link: string): Business {
    Business(
      TrimSpace(input.name), facility, TrimSpace(input.owner), category, riskLevel,
      Details(TrimSpace(input.details.description), input.details.metricValue,
              TrimSpace(input.details.metricUnit), input.details.effectiveAt, TrimSpace(input.details.evidence)),
      link)
  }

  /** An audit entry of the security service. */
  function Entry(k: Key, action: string, caller: Caller, before: Mark, after: Mark, detail: string): Audit {
    Audit(k, action, if caller.actor == "" then "system" else caller.actor,
          if caller.requestId == "" then "untracked" else caller.requestId, before, after, detail)
  }

  /** A row is stored and an entry logged, and nothing else happens. */
  predicate Stores(db: Db, next: Db, k: Key, row: Row, entry: Audit) {
    next == Db(db.rows[k := row], db.approvals, db.audits + [entry])
  }

  // ----------------------------------------------------------------------- status texts

  /** Which status a requested text names. */
  lemma TextNames(s: string)
    ensures Parse(s) == Some(Open) <==> s == "open"
    ensures Parse(s) == Some(Closed) <==> s == "closed"
    ensures Parse(s) == Some(Moving) <==> s == "moving"
    ensures Parse(s) == Some(Locked) <==> s == "locked"
    ensures Parse(s) == Some(Draft) <==> s == "draft"
    ensures Parse(s) == Some(Pending) <==> s == "pending"
    ensures Parse(s) == Some(Approved) <==> s == "approved"
    ensures Parse(s) == Some(Executing) <==> s == "executing"
    ensures Parse(s) == Some(Completed) <==> s == "completed"
    ensures Parse(s) == Some(Aborted) <==> s == "aborted"
    ensures Parse(s) == Some(Confirmed) <==> s == "confirmed"
    ensures Parse(s) == Some(Failed) <==> s == "failed"
    ensures Parse(s) == Some(Cancelled) <==> s == "cancelled"
  {
  }

  // --------------------------------------------------------------------- storing a block

  lemma RowIsShaped(db: Db, k: Key)
    requires AllShaped(db) && k in db.rows
    ensures Shaped(k.kind, db.rows[k])
  {
  }

  lemma MissingIsNotFound(db: Db, req: Request, caller: Caller, id: nat)
    requires !req.Create?
    ensures !Live(db, req.key) ==> Atomic(db, req, caller, id) == Err(NotFound)
  {
  }

  lemma SaveStores(db: Db, b: Block)
    requires Unique(db) && b.write.Save? && b.approval.None? && Live(db, b.key)
    requires b.write.row.code == db.rows[b.key].code && !b.write.row.deleted
    requires b.key.kind == ExecutionConfirmation ==>
      b.write.row.business.relatedCode == db.rows[b.key].business.relatedCode
    ensures db.rows[b.key].version == b.write.expected ==>
      ApplyBlock(db, b).Ok? && Stores(db, ApplyBlock(db, b).value, b.key, b.write.row, b.audit)
    ensures db.rows[b.key].version != b.write.expected ==> ApplyBlock(db, b) == Err(VersionConflict)
  {
    var row := b.write.row;
    assert row.(code := db.rows[b.key].code, deleted := false) == row;
    if b.key.kind == ExecutionConfirmation {
      assert !LinkHeldByOther(db.rows, b.key, row.business.relatedCode);
    }
  }

  lemma InsertStores(db: Db, b: Block)
    requires b.write.Insert? && b.approval.None?
    ensures var row := b.write.row;
            var free :=
              && b.key !in db.rows
              && (forall k :: k in db.rows && k.kind == b.key.kind ==> db.rows[k].code != row.code)
              && (b.key.kind == ExecutionConfirmation ==>
                    forall k :: k in db.rows && k.kind == ExecutionConfirmation ==>
                      db.rows[k].business.relatedCode != row.business.relatedCode);
            if free then ApplyBlock(db, b).Ok? && Stores(db, ApplyBlock(db, b).value, b.key, row, b.audit)
            else ApplyBlock(db, b) == Err(DuplicateKey)
  {
    assert CodeTaken(db.rows, b.key.kind, b.write.row.code) <==>
           !(forall k :: k in db.rows && k.kind == b.key.kind ==> db.rows[k].code != b.write.row.code);
    assert LinkTaken(db.rows, b.write.row.business.relatedCode) <==>
           !(forall k :: k in db.rows && k.kind == ExecutionConfirmation ==>
               db.rows[k].business.relatedCode != b.write.row.business.relatedCode);
  }

  /** A row and a linked row of another table are stored with an entry each, or nothing is. */
  lemma PairStores(db: Db, own: Block, linked: Block)
    requires Unique(db) && own.key.kind != linked.key.kind && linked.key.kind != ExecutionConfirmation
    requires own.write.Save? && own.approval.None? && Live(db, own.key)
    requires own.write.row.code == db.rows[own.key].code && !own.write.row.deleted
    requires own.key.kind == ExecutionConfirmation ==>
      own.write.row.business.relatedCode == db.rows[own.key].business.relatedCode
    requires linked.write.Save? && linked.approval.None? && Live(db, linked.key)
    requires linked.write.row.code == db.rows[linked.key].code && !linked.write.row.deleted
    requires linked.write.expected == db.rows[linked.key].version
    ensures var r := ApplyAll(db, [own, linked]);
            if db.rows[own.key].version == own.write.expected then
              r == Ok(Db(db.rows[own.key := own.write.row][linked.key := linked.write.row],
                         db.approvals, db.audits + [own.audit, linked.audit]))
            else r == Err(VersionConflict)
  {
    SaveStores(db, own);
    if db.rows[own.key].version == own.write.expected {
      var mid := ApplyBlock(db, own).value;
      BlockKeepsUnique(db, own);
      SaveStores(mid, linked);
      ApplyPair(db, own, linked);
      assert db.audits + [own.audit] + [linked.audit] == db.audits + [own.audit, linked.audit];
    }
  }

  // -------------------------------------------------------------------------- deletions

  lemma Texts()
    ensures "created " + Label(GateUnit) == "created 闸门"
    ensures "created " + Label(OperationDirective) == "created 操作指令"
    ensures "created " + Label(ExecutionConfirmation) == "created 执行确认"
    ensures forall kind :: "soft deleted " + Label(kind) == Removed(kind)
  {
  }

  function Removed(kind: Kind): string {
    match kind
    case GateUnit => "soft deleted 闸门"
    case OperationDirective => "soft deleted 操作指令"
    case ExecutionConfirmation => "soft deleted 执行确认"
  }

  /** Deleting: a gate in any status, a directive as a draft, a confirmation while it is
      pending. The row becomes a tombstone of the same version. */
  lemma DeleteMeets(db: Db, k: Key, caller: Caller, id: nat)
    ensures var r := Atomic(db, Delete(k), caller, id);
            var allowed :=
              match k.kind
              case GateUnit => true
              case OperationDirective => k in db.rows && db.rows[k].status == Draft
              case ExecutionConfirmation => k in db.rows && db.rows[k].status == Pending;
            && (!Live(db, k) ==> r == Err(NotFound))
            && (Live(db, k) && !allowed ==> r == Err(ImmutableState))
            && (Live(db, k) && allowed ==>
                  && r.Ok?
                  && Stores(db, r.value, k, db.rows[k].(deleted := true),
                            Entry(k, "delete", caller, At(db.rows[k].status), Gone, Removed(k.kind))))
  {
    Texts();
    if Live(db, k) {
      var b := DeleteBlock(k, db.rows[k], caller);
      if Plan(Delete(k), caller, id, ReadAll(db, Delete(k))).Ok? { AtomicIsBlock(db, Delete(k), caller, id, b); }
    }
  }
}
