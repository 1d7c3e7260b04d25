/** The stored-state invariants: row shapes, unique codes and the approval ledger.
    Each block of a transaction keeps them on its own. */
module Validity {
  import opened Text
  import opened Statuses
  import opened Records
  import opened Transactions
  import opened Versions
  import opened Lifecycle

  // --------------------------------------------------------------------- predicates

  predicate AllShaped(db: Db) {
    forall k :: k in db.rows ==> Shaped(k.kind, db.rows[k])
  }

  /** Codes are unique in each table, and no two confirmations name one directive,
      tombstones included. */
  predicate Unique(db: Db) {
    && (forall j, k | j in db.rows && k in db.rows && j.kind == k.kind :: db.rows[j].code == db.rows[k].code ==> j == k)
    && (forall j, k | j in db.rows && k in db.rows && j.kind == k.kind == ExecutionConfirmation ::
          db.rows[j].business.relatedCode == db.rows[k].business.relatedCode ==> j == k)
  }

  /** The ledger entries of one directive, in order. */
  function LedgerOf(approvals: seq<Approval>, id: nat): seq<Approval> {
    if approvals == [] then []
    else
      var last := approvals[|approvals| - 1];
      LedgerOf(approvals[..|approvals| - 1], id) + if last.directive == id then [last] else []
  }

  predicate IsSubmission(r: Row, a: Approval) {
    a.stage == StageSubmitted && a.actor == r.submittedBy && a.from == Draft && a.to == Pending
        && a.role in {Operator, Admin}
  }

  /** An approval by a second person. */
  predicate IsApproval(r: Row, a: Approval) {
    && a.stage == StageApproved && a.actor == r.approvedBy && a.from == Pending && a.to == Approved
        && a.role in {Reviewer, Admin}
    && r.submittedBy != "" && !EqualFold(r.submittedBy, r.approvedBy)
  }

  predicate SubmittedOnly(r: Row, ledger: seq<Approval>) {
    |ledger| == 1 && IsSubmission(r, ledger[0])
  }

  predicate SubmittedAndApproved(r: Row, ledger: seq<Approval>) {
    |ledger| == 2 && IsSubmission(r, ledger[0]) && IsApproval(r, ledger[1])
  }

  /** The ledger a directive must have in its status. */
  predicate LedgerFits(r: Row, ledger: seq<Approval>) {
    match r.status
    case Draft => ledger == []
    case Pending => SubmittedOnly(r, ledger)
    case Aborted => SubmittedOnly(r, ledger) || SubmittedAndApproved(r, ledger)
    case _ => SubmittedAndApproved(r, ledger)
  }

  predicate Ledgers(db: Db) {
    && (forall k :: k in db.rows && k.kind == OperationDirective ==>
          LedgerFits(db.rows[k], LedgerOf(db.approvals, k.id)))
    && (forall i :: 0 <= i < |db.approvals| ==> Key(OperationDirective, db.approvals[i].directive) in db.rows)
  }

  /** Every row is a later content of what it was. */
  predicate Evolves(a: Db, b: Db) {
    && Grows(a, b)
    && forall k :: k in a.rows ==> Follows(k.kind, a.rows[k], b.rows[k])
  }

  lemma EvolvesTransitive(a: Db, b: Db, c: Db)
    requires Evolves(a, b) && Evolves(b, c)
    ensures Evolves(a, c)
  {
    GrowsTransitive(a, b, c);
    forall k | k in a.rows ensures Follows(k.kind, a.rows[k], c.rows[k]) {
      assert k in b.rows;
      FollowsTransitive(k.kind, a.rows[k], b.rows[k], c.rows[k]);
    }
  }

  /** Block `b` is a legal write in state `db`. */
  predicate Fits(db: Db, b: Block) {
    Documented(b) &&
    match b.write
    case Insert(_) => LegalFirst(b)
    case Remove => b.approval.None?
    case Save(_, _) => LiveAt(db, b.key) && Legal(b, db.rows[b.key])
  }

  // ------------------------------------------------------------------ one row changes

  /** Only the row of the block changes. */
  lemma BlockFrame(db: Db, b: Block)
    requires ApplyBlock(db, b).Ok?
    ensures var next := ApplyBlock(db, b).value;
            && b.key in next.rows
            && (b.write.Insert? <==> b.key !in db.rows)
            && next.rows == db.rows[b.key := next.rows[b.key]]
            && match b.write
               case Insert(row) => next.rows[b.key] == row
               case Save(_, row) => next.rows[b.key] == row.(code := db.rows[b.key].code, deleted := false)
               case Remove => next.rows[b.key] == db.rows[b.key].(deleted := true)
  {
  }

  lemma BlockKeepsShape(db: Db, b: Block)
    requires AllShaped(db) && Fits(db, b) && ApplyBlock(db, b).Ok?
    ensures AllShaped(ApplyBlock(db, b).value)
  {
    BlockFrame(db, b);
  }

  lemma BlockEvolves(db: Db, b: Block)
    requires Fits(db, b) && ApplyBlock(db, b).Ok?
    ensures Evolves(db, ApplyBlock(db, b).value)
  {
    var next := ApplyBlock(db, b).value;
    BlockGrows(db, b);
    BlockFrame(db, b);
    forall k | k in db.rows ensures Follows(k.kind, db.rows[k], next.rows[k]) {
      if k == b.key && b.write.Save? { EdgeFollows(k.kind, db.rows[k], b.write.row); }
    }
  }

  /** The unique indexes hold whatever is written: a write that would break one is
      refused. */
  lemma WriteKeepsUnique(db: Db, k: Key, w: RowWrite)
    requires Unique(db) && WriteRow(db.rows, k, w).Ok?
    ensures Unique(db.(rows := WriteRow(db.rows, k, w).value))
  {
    hide Unique;
    var next := db.(rows := WriteRow(db.rows, k, w).value);
    forall j | j in db.rows && j != k && j.kind == k.kind ensures Distinguished(k.kind, next.rows[k], db.rows[j]) {
      if !w.Insert? { UniquePair(db, j, k); }
    }
    StillUnique(db, next, k);
  }

  /** Two rows that no unique index confuses. */
  predicate Distinguished(kind: Kind, a: Row, b: Row) {
    a.code != b.code && (kind == ExecutionConfirmation ==> a.business.relatedCode != b.business.relatedCode)
  }

  lemma UniquePair(db: Db, j: Key, k: Key)
    requires Unique(db) && j in db.rows && k in db.rows && j.kind == k.kind && j != k
    ensures Distinguished(k.kind, db.rows[k], db.rows[j])
  {
  }

  lemma StillUnique(db: Db, next: Db, k: Key)
    requires Unique(db) && k in next.rows && next.rows == db.rows[k := next.rows[k]]
    requires forall j :: j in db.rows && j != k && j.kind == k.kind ==> Distinguished(k.kind, next.rows[k], db.rows[j])
    ensures Unique(next)
  {
  }

  lemma BlockKeepsUnique(db: Db, b: Block)
    requires Unique(db) && ApplyBlock(db, b).Ok?
    ensures Unique(ApplyBlock(db, b).value)
  {
    WriteKeepsUnique(db, b.key, b.write);
  }

  lemma InsertIsFresh(db: Db, b: Block)
    requires b.write.Insert? && ApplyBlock(db, b).Ok?
    ensures !CodeTaken(db.rows, b.key.kind, b.write.row.code)
    ensures b.key.kind == ExecutionConfirmation ==> !LinkTaken(db.rows, b.write.row.business.relatedCode)
  {
  }

  // ----------------------------------------------------------------------- the ledger

  lemma LedgerPush(approvals: seq<Approval>, a: Approval, id: nat)
    ensures LedgerOf(approvals + [a], id) == LedgerOf(approvals, id) + if a.directive == id then [a] else []
  {
    assert (approvals + [a])[..|approvals + [a]| - 1] == approvals;
  }

  lemma {:induction false} LedgerHas(approvals: seq<Approval>, i: nat)
    requires i < |approvals|
    ensures approvals[i] in LedgerOf(approvals, approvals[i].directive)
    decreases |approvals|
  {
    if i == |approvals| - 1 {
    } else {
      assert approvals[..|approvals| - 1][i] == approvals[i];
      LedgerHas(approvals[..|approvals| - 1], i);
    }
  }

  lemma {:induction false} LedgerEmpty(approvals: seq<Approval>, id: nat)
    requires forall i :: 0 <= i < |approvals| ==> approvals[i].directive != id
    ensures LedgerOf(approvals, id) == []
    decreases |approvals|
  {
    if approvals == [] {
    } else {
      var init := approvals[..|approvals| - 1];
      forall i | 0 <= i < |init| ensures init[i].directive != id { assert init[i] == approvals[i]; }
      LedgerEmpty(init, id);
    }
  }

  /** The unique (directive, stage) index never rejects a legal transition. */
  lemma StageNeverTaken(db: Db, b: Block)
    requires Ledgers(db) && Fits(db, b) && b.write.Save? && b.approval.Some?
    ensures !StageTaken(db.approvals, b.approval.value)
  {
    var a := b.approval.value;
    var ledger := LedgerOf(db.approvals, b.key.id);
    assert LedgerFits(db.rows[b.key], ledger);
    forall i | 0 <= i < |db.approvals| && db.approvals[i].directive == a.directive
      ensures db.approvals[i].stage != a.stage
    {
      LedgerHas(db.approvals, i);
    }
  }

  lemma BlockKeepsLedgers(db: Db, b: Block)
    requires Ledgers(db) && Fits(db, b) && ApplyBlock(db, b).Ok?
    ensures Ledgers(ApplyBlock(db, b).value)
  {
    var next := ApplyBlock(db, b).value;
    BlockFrame(db, b);
    forall k | k in next.rows && k.kind == OperationDirective
      ensures LedgerFits(next.rows[k], LedgerOf(next.approvals, k.id))
    {
      BlockKeepsLedger(db, b, k);
    }
    forall i | 0 <= i < |next.approvals| ensures Key(OperationDirective, next.approvals[i].directive) in next.rows {
      if i < |db.approvals| { assert next.approvals[i] == db.approvals[i]; }
    }
  }

  lemma NewDirectiveHasNoEntries(db: Db, k: Key)
    requires Ledgers(db) && k.kind == OperationDirective && k !in db.rows
    ensures LedgerOf(db.approvals, k.id) == []
  {
    forall i | 0 <= i < |db.approvals| ensures db.approvals[i].directive != k.id {
      assert Key(OperationDirective, db.approvals[i].directive) in db.rows;
      assert k == Key(OperationDirective, k.id);
    }
    LedgerEmpty(db.approvals, k.id);
  }

  lemma BlockKeepsLedger(db: Db, b: Block, k: Key)
    requires Ledgers(db) && Fits(db, b) && ApplyBlock(db, b).Ok?
    requires k.kind == OperationDirective && k in ApplyBlock(db, b).value.rows
    ensures var next := ApplyBlock(db, b).value; LedgerFits(next.rows[k], LedgerOf(next.approvals, k.id))
  {
    BlockFrame(db, b);
    BlockApprovals(db, b);
    RowKeepsLedger(db, ApplyBlock(db, b).value, b, k);
  }

  lemma RowKeepsLedger(db: Db, next: Db, b: Block, k: Key)
    requires Ledgers(db) && Fits(db, b) && k.kind == OperationDirective && k in next.rows
    requires next.approvals == db.approvals + Entered(b)
    requires k != b.key ==> k in db.rows && next.rows[k] == db.rows[k]
    requires k == b.key ==>
      match b.write
      case Insert(row) => k !in db.rows && next.rows[k] == row
      case Save(_, row) => k in db.rows && next.rows[k] == row.(code := db.rows[k].code, deleted := false)
      case Remove => k in db.rows && next.rows[k] == db.rows[k].(deleted := true)
    ensures LedgerFits(next.rows[k], LedgerOf(next.approvals, k.id))
  {
    var ledger := LedgerOf(db.approvals, k.id);
    LedgerEntered(db, b, k);
    if k != b.key {
      assert LedgerFits(db.rows[k], ledger);
    } else if b.write.Insert? {
      NewDirectiveHasNoEntries(db, k);
    } else if b.write.Save? {
      DirectiveWriteKeepsLedger(b, db.rows[k], next.rows[k], ledger);
    } else {
      assert LedgerFits(db.rows[k], ledger);
    }
  }

  /** A block enters approvals only for its own directive. */
  lemma LedgerEntered(db: Db, b: Block, k: Key)
    requires Fits(db, b) && k.kind == OperationDirective
    ensures LedgerOf(db.approvals + Entered(b), k.id) ==
            LedgerOf(db.approvals, k.id) + if k == b.key then Entered(b) else []
  {
    if b.approval.Some? {
      LedgerPush(db.approvals, b.approval.value, k.id);
      assert k == Key(OperationDirective, k.id);
    } else {
      assert db.approvals + Entered(b) == db.approvals;
    }
  }

  lemma DirectiveEdges(a: Status, b: Status)
    requires CanTransition(DIRECTIVE_TRANSITIONS, a, b)
    ensures a == Draft ==> b == Pending
    ensures a == Pending ==> b in {Approved, Aborted}
    ensures a == Approved ==> b in {Executing, Aborted}
    ensures a == Executing ==> b in {Completed, Aborted}
    ensures a in {Draft, Pending, Approved, Executing}
  {
  }

  lemma DirectiveWriteKeepsLedger(b: Block, before: Row, after: Row, ledger: seq<Approval>)
    requires b.key.kind == OperationDirective && b.write.Save? && Legal(b, before)
    requires after == b.write.row.(code := before.code, deleted := false)
    requires LedgerFits(before, ledger)
    ensures LedgerFits(after, ledger + Entered(b))
  {
    hide Shaped, EqualFold, CanTransition, Keeps;
    if before.status != after.status { DirectiveEdges(before.status, after.status); }
    assert ledger + [] == ledger;
  }
}
