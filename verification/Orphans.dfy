/** What becomes of a confirmation whose directive was aborted, or that was deleted
    before it was ended. */
module Orphans {
  import opened Statuses
  import opened Records
  import opened Transactions
  import opened Handlers
  import opened Interleaving
  import opened Versions
  import opened Snapshots
  import opened Lifecycle
  import opened Validity
  import opened Agreement
  import opened Reachability
  import opened Receipts

  /** The directive a confirmation handler has read is the one its row names. */
  lemma SnapshotIsNamed(db: Db, o: Op, d: Key)
    requires Unique(db) && InFlight(db, o) && Coupled(o.req, o.read) && !o.req.Create?
    requires o.read.directive.Some? && o.req.key in db.rows && o.read.primary.Some?
    requires o.read.primary.value.business.relatedCode == db.rows[o.req.key].business.relatedCode
    requires Names(db, o.req.key, d)
    ensures o.read.directive.value.key == d
  {
    var e := o.read.directive.value;
    assert Newer(e.row, db.rows[e.key]);
    assert db.rows[e.key].code == db.rows[d].code;
  }

  /** A receipt that ends a pending confirmation finds the named directive executing. */
  lemma ReceiptFindsExecuting(db: Db, o: Op, id: nat, d: Key)
    requires Valid(db) && OpOk(db, o) && Effect(db, o, id).Ok?
    requires o.req.Transition? && o.req.key.kind == ExecutionConfirmation && Names(db, o.req.key, d)
    requires db.rows[o.req.key].status == Pending
    ensures db.rows[d].status == Executing
  {
    hide Follows, ApplyAll;
    OwnBlockFirst(o.req, o.caller, id, o.read);
    SaveOverwritesItsSource(db, o, id, 0);
    ConfirmationPlanShape(o.req, o.caller, o.read.primary.value, o.read);
    SaveOverwritesItsSource(db, o, id, 1);
    SnapshotIsNamed(db, o, d);
  }

  /** Only a receipt that finds its directive executing can end a pending
      confirmation. */
  lemma PendingEndsWithItsDirective(db: Db, o: Op, id: nat, c: Key, d: Key)
    requires Valid(db) && OpOk(db, o) && Effect(db, o, id).Ok? && Names(db, c, d)
    requires db.rows[c].status == Pending
    ensures c in Effect(db, o, id).value.rows
    ensures Effect(db, o, id).value.rows[c].status != Pending ==> db.rows[d].status == Executing
  {
    hide Valid, ApplyAll, Follows;
    var blocks := Plan(o.req, o.caller, id, o.read).value;
    PlanDocumented(o.req, o.caller, id, o.read);
    if WritesKey(blocks, c) {
      var i :| 0 <= i < |blocks| && blocks[i].key == c;
      RowAfter(db, blocks, i);
      ReceiptBlockIsOwn(o.req, o.caller, id, o.read, i);
      match o.req
      case Create(_, _, _, _, _) =>
      case Update(_, _, _, _, _) => UpdatedColumns(o.req, o.caller, id, o.read);
      case Transition(_, _, _, _) => ReceiptFindsExecuting(db, o, id, d);
      case Delete(_) =>
    } else {
      RowUntouched(db, blocks, c);
    }
  }

  /** Confirmation `c` is pending although its directive `d` was aborted. */
  predicate Orphan(db: Db, c: Key, d: Key) {
    Names(db, c, d) && db.rows[c].status == Pending && db.rows[d].status == Aborted
  }

  lemma OrphanCommit(db: Db, o: Op, id: nat, c: Key, d: Key)
    requires Valid(db) && OpOk(db, o) && Effect(db, o, id).Ok? && Orphan(db, c, d)
    ensures Orphan(Effect(db, o, id).value, c, d)
  {
    hide Valid, OpOk, Plan, ApplyAll;
    var next := Effect(db, o, id).value;
    CommitKeeps(db, o, id);
    NamesKept(db, next, c, d);
    PendingEndsWithItsDirective(db, o, id, c, d);
    assert Follows(d.kind, db.rows[d], next.rows[d]);
  }

  lemma OrphanStep(w: World, e: Event, c: Key, d: Key)
    requires Sound(w) && Orphan(w.db, c, d)
    ensures Orphan(Next(w, e).db, c, d)
  {
    DbAfter(w, e);
    if Succeeds(w, e) { OrphanCommit(w.db, w.ops[e.op], e.id, c, d); }
  }

  /** If a directive is aborted while its confirmation is pending, the confirmation
      stays pending, and the directive aborted, for the rest of the run: no handler,
      in flight or later, can end it. */
  lemma {:induction false} OrphanStaysPending(w: World, events: seq<Event>, c: Key, d: Key)
    requires Sound(w) && HonestRun(w, events) && Orphan(w.db, c, d)
    ensures Orphan(Run(w, events).db, c, d)
    decreases |events|
  {
    if events == [] {
    } else {
      var n := |events| - 1;
      HonestPrefix(w, events, n);
      RunSound(w, events[..n]);
      OrphanStaysPending(w, events[..n], c, d);
      OrphanStep(Run(w, events[..n]), events[n], c, d);
    }
  }

  // -------------------------------------------------- when an update still commits

  /** An update in flight is checked against its own row only. */
  lemma UpdateCommitsIffUnchanged(db: Db, o: Op, id: nat)
    requires Valid(db) && OpOk(db, o) && o.req.Update? && Plan(o.req, o.caller, id, o.read).Ok?
    ensures Effect(db, o, id).Ok? <==> LiveAt(db, o.req.key) && db.rows[o.req.key].version == o.req.expected
  {
    hide Agreeing;
    UpdatePlanShape(o.req, o.caller, id, o.read);
    OwnBlockFirst(o.req, o.caller, id, o.read);
    var b := Plan(o.req, o.caller, id, o.read).value[0];
    OneBlockEffect(db, o, id, b);
    PlanSourced(o.req, o.caller, id, o.read, 0);
    if LiveAt(db, b.key) && db.rows[b.key].version == b.write.expected {
      PlanDocumented(o.req, o.caller, id, o.read);
      UpdateMeetsNoIndex(db, b, o.read.primary.value);
    }
  }

  lemma UpdateMeetsNoIndex(db: Db, b: Block, read: Row)
    requires Unique(db) && LiveAt(db, b.key) && b.write.Save? && b.approval.None?
    requires Keeps(b.key.kind, read, b.write.row) && Keeps(b.key.kind, read, db.rows[b.key])
    requires db.rows[b.key].version == b.write.expected
    ensures ApplyBlock(db, b).Ok?
  {
    assert b.key.kind == ExecutionConfirmation ==> !LinkHeldByOther(db.rows, b.key, b.write.row.business.relatedCode);
  }

  // ---------------------------------------------------------------------- freezing

  /** Handler `o` is an update of `c` that has seen its directive and would be stored
      if it committed now. */
  predicate CanStillUpdate(db: Db, o: Op, c: Key) {
    && o.req.Update? && o.req.key == c && 2 <= o.stage <= STAGES
    && Plan(o.req, o.caller, 0, o.read).Ok?
    && LiveAt(db, c) && db.rows[c].version == o.req.expected
  }

  predicate NoneCanUpdate(w: World, c: Key) {
    forall op :: op in w.ops ==> !CanStillUpdate(w.db, w.ops[op], c)
  }

  /** Only the soft-delete mark of `c` may have changed. */
  predicate Frozen(a: Db, b: Db, c: Key) {
    c in a.rows && c in b.rows && b.rows[c] == a.rows[c].(deleted := b.rows[c].deleted)
  }

  /** The plan of a confirmation update needs an executing directive, and neither the
      gate nor the new key. */
  lemma ReceiptUpdatePlan(req: Request, caller: Caller, id: nat, read: Reads, later: Reads)
    requires req.Update? && req.key.kind == ExecutionConfirmation
    requires later.primary == read.primary && later.directive == read.directive
    ensures Plan(req, caller, id, later) == Plan(req, caller, 0, read)
    ensures Plan(req, caller, 0, read).Ok? ==> read.directive.Some? && read.directive.value.row.status == Executing
  {
  }

  lemma ReadSeesAborted(w: World, op: nat, c: Key, d: Key)
    requires Sound(w) && Orphan(w.db, c, d) && op in w.ops && w.ops[op].stage == 1
    requires w.ops[op].req.Update? && w.ops[op].req.key == c
    ensures var o := w.ops[op];
            var found := ReadNext(w.db, o.req, o.read, 1).directive;
            found.Some? ==> found.value.row.status == Aborted
  {
    var o := w.ops[op];
    var found := ReadNext(w.db, o.req, o.read, 1).directive;
    if found.Some? {
      assert w.db.rows[found.value.key].code == w.db.rows[d].code;
      assert found.value.key == d;
    }
  }

  /** Reading on never makes an update of an orphan possible. */
  lemma ReadEnablesNoUpdate(w: World, op: nat, c: Key, d: Key)
    requires Sound(w) && Orphan(w.db, c, d) && op in w.ops && w.ops[op].stage < STAGES
    requires !CanStillUpdate(w.db, w.ops[op], c)
    ensures var o := w.ops[op];
            !CanStillUpdate(w.db, o.(read := ReadNext(w.db, o.req, o.read, o.stage), stage := o.stage + 1), c)
  {
    hide Valid, Plan, Follows;
    var o := w.ops[op];
    var next := o.(read := ReadNext(w.db, o.req, o.read, o.stage), stage := o.stage + 1);
    if o.req.Update? && o.req.key == c {
      if o.stage == 1 {
        ReadSeesAborted(w, op, c, d);
        ReceiptUpdatePlan(o.req, o.caller, 0, next.read, next.read);
      } else if o.stage == 2 {
        ReceiptUpdatePlan(o.req, o.caller, 0, o.read, next.read);
      }
    }
  }

  lemma OrphanCommitOnlyDeletes(db: Db, o: Op, id: nat, c: Key, d: Key)
    requires Valid(db) && OpOk(db, o) && Effect(db, o, id).Ok? && Orphan(db, c, d)
    requires o.stage == STAGES && !CanStillUpdate(db, o, c)
    ensures Frozen(db, Effect(db, o, id).value, c)
  {
    hide Valid, ApplyAll, Follows;
    var blocks := Plan(o.req, o.caller, id, o.read).value;
    PlanDocumented(o.req, o.caller, id, o.read);
    if WritesKey(blocks, c) {
      var i :| 0 <= i < |blocks| && blocks[i].key == c;
      RowAfter(db, blocks, i);
      ReceiptBlockIsOwn(o.req, o.caller, id, o.read, i);
      match o.req
      case Create(_, _, _, _, _) =>
      case Update(_, _, _, _, _) =>
        ReceiptUpdatePlan(o.req, o.caller, id, o.read, o.read);
        OwnRowMatched(db, o, id);
      case Transition(_, _, _, _) => ReceiptFindsExecuting(db, o, id, d);
      case Delete(_) =>
    } else {
      RowUntouched(db, blocks, c);
    }
  }

  lemma FrozenEnablesNoUpdate(a: Db, b: Db, o: Op, c: Key)
    requires Frozen(a, b, c) && Newer(a.rows[c], b.rows[c]) && !CanStillUpdate(a, o, c)
    ensures !CanStillUpdate(b, o, c)
  {
  }

  lemma OrphanStepOnlyDeletes(w: World, e: Event, c: Key, d: Key)
    requires Sound(w) && HonestEvent(w, e) && Orphan(w.db, c, d) && NoneCanUpdate(w, c)
    ensures Frozen(w.db, Next(w, e).db, c) && NoneCanUpdate(Next(w, e), c)
  {
    hide Valid, CanStillUpdate, OpOk, Plan, ApplyAll, ReadNext;
    StepSound(w, e);
    DbAfter(w, e);
    match e
    case Begin(op, req, caller) => BeginEnablesNoUpdate(w.db, req, caller, c);
    case Read(op) =>
      if op in w.ops && w.ops[op].stage < STAGES { ReadEnablesNoUpdate(w, op, c, d); }
    case Commit(op, id) =>
      if Succeeds(w, e) {
        OrphanCommitOnlyDeletes(w.db, w.ops[op], id, c, d);
        forall p | p in Next(w, e).ops ensures !CanStillUpdate(Next(w, e).db, w.ops[p], c) {
          FrozenEnablesNoUpdate(w.db, Next(w, e).db, w.ops[p], c);
        }
      }
  }

  lemma BeginEnablesNoUpdate(db: Db, req: Request, caller: Caller, c: Key)
    ensures !CanStillUpdate(db, Op(req, caller, NOTHING_READ, 0), c)
  {
  }

  /** While no update in flight can still be stored, an orphaned confirmation is frozen:
      through every honest run its stored content never changes again, except that it
      may be deleted. */
  lemma {:induction false} OrphanIsFrozen(w: World, events: seq<Event>, c: Key, d: Key)
    requires Sound(w) && HonestRun(w, events) && Orphan(w.db, c, d) && NoneCanUpdate(w, c)
    ensures NoneCanUpdate(Run(w, events), c) && Frozen(w.db, Run(w, events).db, c)
    decreases |events|
  {
    if events == [] {
    } else {
      var n := |events| - 1;
      HonestPrefix(w, events, n);
      RunSound(w, events[..n]);
      OrphanIsFrozen(w, events[..n], c, d);
      OrphanStaysPending(w, events[..n], c, d);
      assert HonestEvent(Run(w, events[..n]), events[n]);
      OrphanStepOnlyDeletes(Run(w, events[..n]), events[n], c, d);
    }
  }

  /** What is left to do for a handler that has seen its directive. */
  function Finishing(o: Op, op: nat): seq<Event> {
    if o.stage == 2 then [Read(op), Commit(op, 0)] else [Commit(op, 0)]
  }

  lemma FinishingIsHonest(w: World, op: nat)
    requires op in w.ops
    ensures HonestRun(w, Finishing(w.ops[op], op))
  {
    hide Run;
  }

  lemma CommitChanges(db: Db, o: Op, c: Key)
    requires Valid(db) && OpOk(db, o) && CanStillUpdate(db, o, c)
    ensures Effect(db, o, 0).Ok? && !Frozen(db, Effect(db, o, 0).value, c)
  {
    UpdateCommitsIffUnchanged(db, o, 0);
    PlanDocumented(o.req, o.caller, 0, o.read);
    OwnBlockFirst(o.req, o.caller, 0, o.read);
    RowAfter(db, Plan(o.req, o.caller, 0, o.read).value, 0);
  }

  /** An update that can still be stored thaws its row by finishing. */
  lemma FinishingChanges(w: World, op: nat, c: Key)
    requires Sound(w) && op in w.ops && c.kind == ExecutionConfirmation && CanStillUpdate(w.db, w.ops[op], c)
    ensures !Frozen(w.db, Run(w, Finishing(w.ops[op], op)).db, c)
  {
    hide Valid, OpOk, Plan, ApplyAll, Frozen;
    var o := w.ops[op];
    if o.stage == 2 {
      var mid := Next(w, Read(op));
      ValidIsShaped(w.db);
      ReadKeepsOpOk(w.db, o);
      ReceiptUpdatePlan(o.req, o.caller, 0, o.read, mid.ops[op].read);
      CommitChanges(w.db, mid.ops[op], c);
      assert [Read(op), Commit(op, 0)][..1] == [Read(op)] && [Read(op)][..0] == [];
      assert Run(w, [Read(op)]) == mid;
      assert Run(w, [Read(op), Commit(op, 0)]) == Next(mid, Commit(op, 0));
    } else {
      CommitChanges(w.db, o, c);
      assert [Commit(op, 0)][..0] == [];
      assert Run(w, [Commit(op, 0)]) == Next(w, Commit(op, 0));
    }
  }

  /** Exactly when an orphaned confirmation is frozen: every honest run leaves its
      content alone if and only if no update of it in flight has seen the directive
      executing, holds the stored version, and can still be stored. */
  lemma OrphanIsFrozenIff(w: World, c: Key, d: Key)
    requires Sound(w) && Orphan(w.db, c, d)
    ensures (forall events :: HonestRun(w, events) ==> Frozen(w.db, Run(w, events).db, c)) <==>
            !(exists op :: op in w.ops && CanStillUpdate(w.db, w.ops[op], c))
  {
    hide Sound, CanStillUpdate, Frozen, HonestRun, Run;
    if NoneCanUpdate(w, c) {
      forall events | HonestRun(w, events) ensures Frozen(w.db, Run(w, events).db, c) {
        OrphanIsFrozen(w, events, c, d);
      }
    } else {
      var op :| op in w.ops && CanStillUpdate(w.db, w.ops[op], c);
      FinishingIsHonest(w, op);
      FinishingChanges(w, op, c);
    }
  }

  /** If a pending confirmation is deleted, its tombstone keeps its place: no other
      confirmation of that directive is ever stored, and the directive is never
      completed. */
  lemma DeletedReceiptBlocksCompletion(w: World, events: seq<Event>, c: Key, d: Key)
    requires Sound(w) && HonestRun(w, events) && Names(w.db, c, d)
    requires w.db.rows[c].deleted && w.db.rows[c].status == Pending
    ensures var db := Run(w, events).db;
            && Names(db, c, d) && db.rows[c] == w.db.rows[c]
            && (forall b :: Names(db, b, d) ==> b == c)
            && db.rows[d].status in {Executing, Aborted}
  {
    hide Run, HonestRun, InFlight;
    var db := Run(w, events).db;
    RunSound(w, events);
    assert Newer(w.db.rows[c], db.rows[c]);
    NamesKept(w.db, db, c, d);
    AgreeingMeans(db, d);
    assert Agree(db.rows[c].status, db.rows[d].status);
  }
}
