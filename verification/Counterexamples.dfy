/** What the protocol does not promise, each shown on every state of its kind: why
    clients must send versions they have seen, and which reads a commit does not
    check again. */
module Counterexamples {
  import opened Outcomes
  import opened Text
  import opened Statuses
  import opened Records
  import opened Transactions
  import opened Handlers
  import opened Interleaving
  import opened Versions
  import opened Snapshots
  import opened Lifecycle
  import opened Validity
  import opened Agreement
  import opened Reachability
  import opened GateOutcomes
  import opened Workflow
  import opened Orphans
  import opened Refinement

  // ------------------------------------------------------------- guessed versions

  /** A client that guesses the next version defeats the check: an update of a draft
      that was read before the draft was submitted commits after the submission, and
      puts the directive back to draft with its submission still in the ledger. */
  lemma GuessedVersionUndoesSubmission(db: Db, d: Key, o: Op, submitter: Caller, reason: string)
    returns (submitted: Db, last: Db)
    requires Valid(db) && LiveAt(db, d) && d.kind == OperationDirective && db.rows[d].status == Draft
    requires o.req.Update? && o.req.key == d && o.req.expected == db.rows[d].version + 1
    requires o.read == ReadAll(db, o.req) && Plan(o.req, o.caller, 0, o.read).Ok?
    requires submitter.role in {Operator, Admin}
    ensures !Honest(db, o.req)
    ensures Atomic(db, Move(d, db, Pending, reason), submitter, 0) == Ok(submitted)
    ensures d in submitted.rows && submitted.rows[d].status == Pending
    ensures Effect(submitted, o, 0) == Ok(last)
    ensures d in last.rows && last.rows[d].status == Draft
    ensures |LedgerOf(last.approvals, d.id)| == 1 && !Ledgers(last)
  {
    hide Valid, Atomic, AllShaped, Ledgers, Plan, ReadAll, Effect, LedgerOf;
    DraftEdges();
    submitted := QuietStep(db, d, Key(GateUnit, 0), Pending, submitter, reason);
    assert submitted.rows[d] == Moved(db.rows[d], Pending, submitter);
    SubmittedHasOneEntry(submitted, d);
    var b := DraftUpdatePlan(o.req, o.caller, 0, o.read);
    OneBlockEffect(submitted, o, 0, b);
    last := UpdateLeavesLedger(submitted, d, b);
  }

  lemma SubmittedHasOneEntry(db: Db, d: Key)
    requires Valid(db) && d in db.rows && d.kind == OperationDirective && db.rows[d].status == Pending
    ensures |LedgerOf(db.approvals, d.id)| == 1
  {
    assert LedgerFits(db.rows[d], LedgerOf(db.approvals, d.id));
  }

  lemma DraftUpdatePlan(req: Request, caller: Caller, id: nat, read: Reads) returns (b: Block)
    requires req.Update? && req.key.kind == OperationDirective && Plan(req, caller, id, read).Ok?
    ensures Plan(req, caller, id, read) == Ok([b])
    ensures b.key == req.key && b.write.Save? && b.write.expected == req.expected && b.approval.None?
    ensures b.write.row.status == Draft
  {
    b := Plan(req, caller, id, read).value[0];
  }

  lemma UpdateLeavesLedger(db: Db, d: Key, b: Block) returns (next: Db)
    requires LiveAt(db, d) && d.kind == OperationDirective && b.key == d
    requires b.write.Save? && b.write.expected == db.rows[d].version && b.write.row.status == Draft && b.approval.None?
    requires |LedgerOf(db.approvals, d.id)| == 1
    ensures ApplyBlock(db, b) == Ok(next)
    ensures d in next.rows && next.rows[d].status == Draft && next.approvals == db.approvals && !Ledgers(next)
  {
    next := ApplyBlock(db, b).value;
    assert !LedgerFits(next.rows[d], LedgerOf(next.approvals, d.id));
  }

  // ------------------------------------------------------ what a commit checks again

  /** A deletion checks only that its row is live, so the rule that only a pending
      confirmation can be deleted does not survive interleaving: a deletion that read it pending commits after its
          confirmation. */
  lemma StaleDeleteHidesConfirmed(db: Db, o: Op, id: nat, c: Key)
    requires LiveAt(db, c) && c.kind == ExecutionConfirmation && db.rows[c].status == Confirmed
    requires o.req == Delete(c) && o.read.primary.Some? && o.read.primary.value.status == Pending
    ensures Effect(db, o, id).Ok? && !LiveAt(Effect(db, o, id).value, c)
    ensures Plan(o.req, o.caller, id, ReadAll(db, o.req)) == Err(ImmutableState)
  {
    DeleteCommitsIffLive(db, o, id);
  }

  /** Orphans are easy to make: aborting an executing directive leaves its pending
      confirmation as it is. */
  lemma AbortOrphans(db: Db, c: Key, d: Key, g: Key, caller: Caller, reason: string) returns (next: Db)
    requires Valid(db) && Abortable(db, d, g, caller) && Names(db, c, d) && db.rows[c].status == Pending
    ensures Atomic(db, Move(d, db, Aborted, reason), caller, 0) == Ok(next)
    ensures Orphan(next, c, d) && next.rows[c] == db.rows[c]
  {
    hide AllShaped, Unique, Ledgers, Agreeing, Atomic, HasCode;
    assert d != c && g != c && d != g;
    AbortStep(db, d, g, caller, 0, reason);
    next := Atomic(db, Move(d, db, Aborted, reason), caller, 0).value;
  }

  /** An orphaned confirmation can still change once: an update that had seen its
      directive executing commits after the directive was aborted. */
  lemma OrphanChangesOnce(db: Db, o: Op, id: nat, c: Key, d: Key)
    requires Valid(db) && OpOk(db, o) && Orphan(db, c, d) && LiveAt(db, c)
    requires o.req.Update? && o.req.key == c && o.req.expected == db.rows[c].version
    requires Plan(o.req, o.caller, id, o.read).Ok?
    ensures Effect(db, o, id).Ok?
    ensures c in Effect(db, o, id).value.rows && Effect(db, o, id).value.rows[c].version == db.rows[c].version + 1
    ensures Plan(o.req, o.caller, id, ReadAll(db, o.req)).Err?
  {
    UpdateCommitsIffUnchanged(db, o, id);
    PlanDocumented(o.req, o.caller, id, o.read);
    OwnBlockFirst(o.req, o.caller, id, o.read);
    RowAfter(db, Plan(o.req, o.caller, id, o.read).value, 0);
    OrphanUpdateRefused(db, o.req, o.caller, id, c, d);
  }

  lemma OrphanUpdateRefused(db: Db, req: Request, caller: Caller, id: nat, c: Key, d: Key)
    requires AllShaped(db) && Unique(db) && Orphan(db, c, d) && req.Update? && req.key == c
    ensures Plan(req, caller, id, ReadAll(db, req)).Err?
  {
    assert Shaped(c.kind, db.rows[c]);
    var code := db.rows[c].business.relatedCode;
    var found := GetByCode(db, OperationDirective, code);
    if found.Some? { assert found.value.key == d; }
    if LiveAt(db, c) { assert ReadAll(db, req).directive == found; }
  }

  /** A gate that needs no write is not checked again: it may be locked between the
      reads of a confirmation and its commit, and the directive is still completed. */
  lemma UnwrittenGateIsNotChecked(db: Db, o: Op, id: nat, c: Key, d: Key, g: Key, locker: Caller, reason: string)
    returns (locked: Db, last: Db)
    requires Valid(db) && Confirmable(db, c, d, g) && db.rows[g].status == db.rows[d].gateState
    requires db.rows[d].gateState == Open
    requires o == Op(Move(c, db, Confirmed, reason), o.caller, ReadAll(db, o.req), STAGES)
    ensures Atomic(db, Move(g, db, Locked, reason), locker, 0) == Ok(locked)
    ensures Effect(locked, o, id) == Ok(last)
    ensures {d, g} <= last.rows.Keys && last.rows[d].status == Completed && last.rows[g].status == Locked
    ensures Atomic(locked, o.req, o.caller, id) == Err(InvalidTransition)
  {
    locked := LockGate(db, g, locker, reason);
    ConfirmReads(db, c, d, g, reason);
    assert Shaped(d.kind, db.rows[d]);
    ConfirmStored(db, c, d, g, o.caller, id, reason, o.read);
    OutcomeStillStored(db, locked, o, id, c, d, g, reason);
    LockedGateRefuses(db, locked, c, d, g, o.req, o.caller, id, reason);
    last := Effect(locked, o, id).value;
  }

  lemma LockGate(db: Db, g: Key, locker: Caller, reason: string) returns (mid: Db)
    requires LiveAt(db, g) && g.kind == GateUnit && StatusOf(GateUnit, db.rows[g].status) && db.rows[g].status != Locked
    ensures Atomic(db, Move(g, db, Locked, reason), locker, 0) == Ok(mid)
    ensures mid.rows == db.rows[g := db.rows[g].(status := Locked, version := db.rows[g].version + 1)]
  {
    var req := Move(g, db, Locked, reason);
    TrimName(Locked);
    GateEdges(db.rows[g].status, Locked);
    var row := db.rows[g].(status := Locked, version := db.rows[g].version + 1);
    var b := Block(g, Save(db.rows[g].version, row), None, Recorded(g, locker, db.rows[g].status, Locked, reason));
    assert Plan(req, locker, 0, ReadAll(db, req)) == Ok([b]);
    AtomicIsBlock(db, req, locker, 0, b);
    assert row.(code := db.rows[g].code, deleted := false) == row;
    mid := ApplyBlock(db, b).value;
  }

  lemma OutcomeStillStored(db: Db, mid: Db, o: Op, id: nat, c: Key, d: Key, g: Key, reason: string)
    requires Unique(db) && Confirmable(db, c, d, g) && db.rows[g].status == db.rows[d].gateState
    requires mid.rows == db.rows[g := db.rows[g].(status := Locked, version := db.rows[g].version + 1)]
    requires o.req == Move(c, db, Confirmed, reason)
    requires o.read == Reads(Some(db.rows[c]), Some(Found(d, db.rows[d])), Some(Found(g, db.rows[g])), 0)
    requires Plan(o.req, o.caller, id, o.read).Ok?
    ensures Effect(mid, o, id).Ok?
    ensures var last := Effect(mid, o, id).value;
            {d, g} <= last.rows.Keys && last.rows[d].status == Completed && last.rows[g].status == Locked
  {
    var own := ConfirmationBlock(o.req, o.caller, db.rows[c], Confirmed);
    var linked := LinkedBlock(Found(d, db.rows[d]), Completed, "execution_outcome", o.caller, reason);
    TrimName(Confirmed);
    ReceiptPlan(o.req, o.caller, db.rows[c], o.read, Confirmed);
    var blocks := Plan(o.req, o.caller, id, o.read).value;
    assert blocks == [own, linked];
    PairStored(db, mid, c, d, g, own, linked);
  }

  lemma PairStored(db: Db, mid: Db, c: Key, d: Key, g: Key, own: Block, linked: Block)
    requires Unique(db) && Confirmable(db, c, d, g)
    requires mid.rows == db.rows[g := db.rows[g].(status := Locked, version := db.rows[g].version + 1)]
    requires own.key == c && own.write.Save? && own.write.expected == db.rows[c].version && own.approval.None?
    requires own.write.row.business == db.rows[c].business
    requires linked.key == d && linked.write.Save? && linked.write.expected == db.rows[d].version
        && linked.approval.None?
    requires linked.write.row.status == Completed
    ensures ApplyAll(mid, [own, linked]).Ok?
    ensures var last := ApplyAll(mid, [own, linked]).value;
            {d, g} <= last.rows.Keys && last.rows[d].status == Completed && last.rows[g].status == Locked
  {
    var blocks := [own, linked];
    assert !LinkHeldByOther(db.rows, c, db.rows[c].business.relatedCode);
    assert !LinkHeldByOther(mid.rows, c, db.rows[c].business.relatedCode);
    MatchingSavesApply(mid, blocks);
    RowAfter(mid, blocks, 1);
    RowUntouched(mid, blocks, g);
  }

  lemma LockedGateRefuses(db: Db, mid: Db, c: Key, d: Key, g: Key, req: Request, caller: Caller, id: nat,
      reason: string)
    requires Unique(db) && Confirmable(db, c, d, g) && db.rows[d].gateState == Open
    requires mid.rows == db.rows[g := db.rows[g].(status := Locked, version := db.rows[g].version + 1)]
    requires req == Move(c, db, Confirmed, reason)
    ensures Atomic(mid, req, caller, id) == Err(InvalidTransition)
  {
    hide Unique, TrimSpace;
    TrimName(Confirmed);
    GateEdges(Locked, Open);
    LockedGateReads(db, mid, c, d, g, reason);
  }

  lemma LockedGateReads(db: Db, mid: Db, c: Key, d: Key, g: Key, reason: string)
    requires Unique(db) && Confirmable(db, c, d, g)
    requires mid.rows == db.rows[g := db.rows[g].(status := Locked, version := db.rows[g].version + 1)]
    ensures ReadAll(mid, Move(c, db, Confirmed, reason)) ==
            Reads(Some(db.rows[c]), Some(Found(d, db.rows[d])), Some(Found(g, mid.rows[g])), 0)
  {
    hide Canon;
    assert forall k :: k in mid.rows ==> mid.rows[k].code == db.rows[k].code;
    assert HasCode(mid, d, OperationDirective, db.rows[c].business.relatedCode);
    assert GetByCode(mid, OperationDirective, db.rows[c].business.relatedCode) == Some(Found(d, db.rows[d]));
    assert HasCode(mid, g, GateUnit, db.rows[d].business.relatedCode);
    assert GetByCode(mid, GateUnit, db.rows[d].business.relatedCode) == Some(Found(g, mid.rows[g]));
  }

  // ------------------------------------------------------------------- sharing a gate

  /** Nothing keeps a gate for one directive: two approved directives of one unlocked
      gate can be started one after the other, and then both execute. */
  lemma TwoExecutionsShareAGate(db: Db, d: Key, e: Key, g: Key, first: Caller, second: Caller, reason: string)
    returns (mid: Db, last: Db)
    requires Valid(db) && d != e && Executable(db, d, g, first) && Executable(db, e, g, second)
    ensures Atomic(db, Move(d, db, Executing, reason), first, 0) == Ok(mid)
    ensures e in mid.rows && Atomic(mid, Move(e, mid, Executing, reason), second, 0) == Ok(last)
    ensures {d, e} <= last.rows.Keys && last.rows[d].status == Executing && last.rows[e].status == Executing
    ensures Canon(last.rows[d].business.relatedCode) == Canon(last.rows[e].business.relatedCode)
  {
    hide Valid, Atomic, Move;
    mid := StartStep(db, d, g, first, reason);
    last := StartStep(mid, e, g, second, reason);
  }
}
