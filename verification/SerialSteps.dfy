/** At its place in the serial order a commit is the one-step handler: it reads the same,
    is stored, and leaves the same rows. */
module SerialSteps {
  import opened Outcomes
  import opened Text
  import opened Records
  import opened Transactions
  import opened Handlers
  import opened Interleaving
  import opened Versions
  import opened Snapshots
  import opened Lifecycle
  import opened Validity
  import opened Reachability
  import opened Refinement
  import opened Guarantees
  import opened Workflow
  import opened Exactness
  import opened DecisionPoints
  import opened Executions
  import opened Places

  // ------------------------------------------------------------ a commit at its place

  /** State `db` is what the commits before place `s` have left: every row is as it was
      when just its writers before `s` had committed. */
  ghost predicate Mirrors(x: Execution, db: Db, s: Slot) {
    forall k, t :: Cut(x, k, s, t) ==> SameRow(db, StateAt(x, t), k)
  }

  /** Every row of `a` is a row of `b`, with the same code and link. */
  predicate RowsWithin(a: Db, b: Db) {
    && (forall k :: k in a.rows ==> k in b.rows && a.rows[k].code == b.rows[k].code)
    && (forall k :: k in a.rows && k.kind == ExecutionConfirmation ==>
          a.rows[k].business.relatedCode == b.rows[k].business.relatedCode)
  }

  ghost function End(x: Execution): Db {
    StateAt(x, |x.events|)
  }

  /** What a commit finds at its place. */
  ghost predicate Placed(x: Execution, i: nat, db: Db) {
    Orderly(x) && Commits(x, i) && Mirrors(x, db, SlotOf(x, i)) && Valid(db) && RowsWithin(db, End(x))
  }

  lemma WrittenPlaced(x: Execution, i: nat, db: Db, k: Key)
    requires Placed(x, i, db) && WritesKey(BlocksOf(x, i), k)
    ensures SameRow(db, StateAt(x, i), k)
  {
    hide Orderly, BlocksOf, WritesKey, SlotOf, Cut, StateAt, Valid, RowsWithin, Commits;
    assert Writes(x, i, k);
    WrittenCut(x, i, k);
  }

  lemma OwnBlockIsWritten(req: Request, caller: Caller, id: nat, read: Reads)
    requires Plan(req, caller, id, read).Ok? && !req.Create?
    ensures var blocks := Plan(req, caller, id, read).value; blocks != [] && blocks[0].key == req.key
    ensures read.primary.Some?
  {
    hide TrimSpace, EqualFold, Tidy, ValidFields, Canon, Logged, CopyFrom;
  }

  lemma OwnPlaced(x: Execution, i: nat, db: Db)
    requires Placed(x, i, db) && !Handler(x, i).req.Create?
    ensures SameRow(db, StateAt(x, i), Handler(x, i).req.key) && LiveAt(StateAt(x, i), Handler(x, i).req.key)
    ensures !Handler(x, i).req.Delete? ==> Get(db, Handler(x, i).req.key) == Handler(x, i).read.primary
  {
    hide Orderly, Plan, ApplyAll, Valid, OpOk, Mirrors, SlotOf, RowsWithin, StateAt;
    CommitFacts(x, i);
    var o := Handler(x, i);
    OwnBlockIsWritten(o.req, o.caller, NewId(x, i), o.read);
    assert BlocksOf(x, i)[0].key == o.req.key;
    WrittenPlaced(x, i, db, o.req.key);
    if o.req.Delete? {
      DeleteCommitsIffLive(StateAt(x, i), o, NewId(x, i));
    } else {
      OwnRowReadAgain(StateAt(x, i), o, NewId(x, i));
    }
  }

  /** Linked row `f` is in `db` as it was read. */
  predicate AsRead(db: Db, f: Found) {
    LiveAt(db, f.key) && db.rows[f.key] == f.row
  }

  lemma DirectivePlaced(x: Execution, i: nat, db: Db)
    requires Placed(x, i, db) && Handler(x, i).read.directive.Some? && !Handler(x, i).req.Delete?
    ensures AsRead(db, Handler(x, i).read.directive.value)
  {
    hide Orderly, Plan, ApplyAll, Valid, OpOk, SlotOf, RowsWithin, StateAt, Cut;
    CommitFacts(x, i);
    var o := Handler(x, i);
    if EditsReceipt(o.req) {
      var t := DirectiveCut(x, i);
    } else {
      DirectiveReaders(o);
      ReceiptDirectiveKept(StateAt(x, i), o, NewId(x, i));
      ReceiptWritesDirective(StateAt(x, i), o, NewId(x, i));
      WrittenPlaced(x, i, db, o.read.directive.value.key);
    }
  }

  lemma DirectiveReaders(o: Op)
    requires Addressed(o) && o.read.directive.Some? && !o.req.Delete? && !EditsReceipt(o.req)
    ensures o.req.Transition?
  {
  }

  lemma ReceiptWritesDirective(db: Db, o: Op, id: nat)
    requires OpOk(db, o) && Addressed(o) && Effect(db, o, id).Ok? && o.req.Transition? && o.read.directive.Some?
    ensures WritesKey(Plan(o.req, o.caller, id, o.read).value, o.read.directive.value.key)
  {
    hide Follows, ApplyAll;
    OwnBlockFirst(o.req, o.caller, id, o.read);
    ReceiptDirectiveKept(db, o, id);
    ConfirmationPlanShape(o.req, o.caller, o.read.primary.value, o.read);
    assert Plan(o.req, o.caller, id, o.read).value[1].key == o.read.directive.value.key;
  }

  lemma GatePlaced(x: Execution, i: nat, db: Db)
    requires Placed(x, i, db) && Handler(x, i).read.gate.Some? && !Handler(x, i).req.Delete?
    ensures AsRead(db, Handler(x, i).read.gate.value)
  {
    hide Orderly, Plan, ApplyAll, Valid, OpOk, SlotOf, RowsWithin, StateAt, Cut;
    CommitFacts(x, i);
    var o := Handler(x, i);
    EditsReadNoGate(o);
    if GateWritten(o.req, o.caller, NewId(x, i), o.read) {
      GateWrittenByTransition(x, i);
      WrittenGateKept(StateAt(x, i), o, NewId(x, i));
      WrittenPlaced(x, i, db, o.read.gate.value.key);
    } else {
      GateWasRead(x, i);
      GateCut(x, i, o.read.gate.value.key);
    }
  }

  lemma EditsReadNoGate(o: Op)
    requires Addressed(o)
    ensures o.read.gate.Some? ==> !EditsReceipt(o.req)
  {
  }

  lemma GateWrittenByTransition(x: Execution, i: nat)
    requires Orderly(x) && Commits(x, i) && !Handler(x, i).req.Delete?
    requires GateWritten(Handler(x, i).req, Handler(x, i).caller, NewId(x, i), Handler(x, i).read)
    ensures Handler(x, i).req.Transition?
  {
    hide Orderly, Plan, ApplyAll, Valid, OpOk;
    CommitFacts(x, i);
    var o, blocks := Handler(x, i), BlocksOf(x, i);
    OpOkInFlight(StateAt(x, i), o);
    var j :| 0 <= j < |blocks| && blocks[j].key == o.read.gate.value.key;
    GateWriters(o.req, o.caller, NewId(x, i), o.read, j);
    GateHandlersReadNoGate(o);
  }

  lemma GateWasRead(x: Execution, i: nat)
    requires Orderly(x) && Commits(x, i) && Handler(x, i).read.gate.Some?
    ensures Handler(x, i).read.gate.value.key.kind == GateUnit
    ensures AsRead(StateAt(x, TimesOf(x, i).gated), Handler(x, i).read.gate.value)
  {
    hide Orderly, TimesOf, InFlightSince, Succeeds, StateAt;
    TimesAre(x, i);
    CommitFacts(x, i);
  }

  // ----------------------------------------------------------------- planning at its place

  /** Reading rows that are as they were read, and counting none, reads the same. */
  lemma RereadSeen(db: Db, o: Op, id: nat)
    requires Unique(db) && Addressed(o) && Plan(o.req, o.caller, id, o.read).Ok? && !o.req.Delete? && Typed(o.read)
    requires (if o.req.Create? then None else Get(db, o.req.key)) == o.read.primary
    requires o.read.directive.Some? ==> AsRead(db, o.read.directive.value)
    requires o.read.gate.Some? ==> AsRead(db, o.read.gate.value)
    requires o.req.Create? && o.req.kind == ExecutionConfirmation && o.read.directive.Some? ==>
      LiveConfirmations(db, o.read.directive.value.row.code) == {}
    ensures ReadAll(db, o.req) == o.read
  {
    hide Plan, Unique;
    PlanFoundItsLinks(o, id);
    var one := ReadNext(db, o.req, NOTHING_READ, 0);
    assert one.primary == o.read.primary;
    var two := ReadNext(db, o.req, one, 1);
    assert two.directive == o.read.directive by {
      assert DirectiveCode(o.req, one) == DirectiveCode(o.req, o.read);
      if o.read.directive.Some? {
        FindsByCode(db, o.read.directive.value.key, DirectiveCode(o.req, o.read).value);
      }
    }
    assert GateCode(o.req, two) == GateCode(o.req, o.read);
    if o.read.gate.Some? { FindsByCode(db, o.read.gate.value.key, GateCode(o.req, o.read).value); }
  }

  /** A row that is created was not there before, nor its code, nor its link. */
  lemma NewRowIsFresh(x: Execution, i: nat, db: Db, b: Block)
    requires Placed(x, i, db) && |BlocksOf(x, i)| == 1 && BlocksOf(x, i)[0] == b && b.write.Insert?
    ensures b.key !in db.rows && !CodeTaken(db.rows, b.key.kind, b.write.row.code)
    ensures b.key.kind == ExecutionConfirmation ==> !LinkTaken(db.rows, b.write.row.business.relatedCode)
  {
    hide Orderly, Plan, ApplyAll, OpOk, Mirrors, SlotOf, StateAt;
    CommitFacts(x, i);
    CommitEvent(x, i);
    WrittenPlaced(x, i, db, b.key);
    RowAfter(StateAt(x, i), BlocksOf(x, i), 0);
    Segment(x, i + 1, |x.events|);
    FreshUnderEnd(db, StateAt(x, i + 1), End(x), b.key);
  }

  lemma FreshUnderEnd(db: Db, made: Db, end: Db, k: Key)
    requires k !in db.rows && k in made.rows && Evolves(made, end) && Unique(end) && RowsWithin(db, end)
    ensures !CodeTaken(db.rows, k.kind, made.rows[k].code)
    ensures k.kind == ExecutionConfirmation ==> !LinkTaken(db.rows, made.rows[k].business.relatedCode)
  {
    assert Newer(made.rows[k], end.rows[k]) && Follows(k.kind, made.rows[k], end.rows[k]);
  }

  lemma FreshCounts(db: Db, code: string)
    requires !LinkTaken(db.rows, code) && Canon(code) == code
    ensures LiveConfirmations(db, code) == {}
  {
  }

  lemma ReadsAtPlace(x: Execution, i: nat, db: Db)
    requires Placed(x, i, db) && !Handler(x, i).req.Delete?
    ensures ReadAll(db, Handler(x, i).req) == Handler(x, i).read
  {
    hide Orderly, Plan, ApplyAll, OpOk, Mirrors, SlotOf, StateAt, AsRead;
    CommitFacts(x, i);
    var o := Handler(x, i);
    OpOkInFlight(StateAt(x, i), o);
    if !o.req.Create? { OwnPlaced(x, i, db); } else { CreatesReadNoRow(StateAt(x, i), o); }
    if o.read.directive.Some? { DirectivePlaced(x, i, db); }
    if o.read.gate.Some? { GatePlaced(x, i, db); }
    if o.req.Create? && o.req.kind == ExecutionConfirmation { CountsNoneAtPlace(x, i, db); }
    RereadSeen(db, o, NewId(x, i));
  }

  lemma CreatesReadNoRow(db: Db, o: Op)
    requires InFlight(db, o) && o.req.Create?
    ensures o.read.primary.None?
  {
  }

  lemma CountsNoneAtPlace(x: Execution, i: nat, db: Db)
    requires Placed(x, i, db) && Handler(x, i).req.Create? && Handler(x, i).req.kind == ExecutionConfirmation
    ensures Handler(x, i).read.directive.Some?
    ensures LiveConfirmations(db, Handler(x, i).read.directive.value.row.code) == {}
  {
    hide Orderly, ApplyAll, Mirrors, SlotOf, StateAt, Placed, Valid, RowsWithin;
    EditFacts(x, i) by { PlacedMeans(x, i, db); }
    PlacedMeans(x, i, db);
    CommitFacts(x, i);
    var o := Handler(x, i);
    NewRowIsFresh(x, i, db, BlocksOf(x, i)[0]);
    EditPlan(o.req, o.caller, NewId(x, i), o.read);
    DirectiveIsShaped(StateAt(x, i), o);
    FreshCounts(db, o.read.directive.value.row.code);
  }

  lemma PlacedMeans(x: Execution, i: nat, db: Db)
    requires Placed(x, i, db)
    ensures Orderly(x) && Commits(x, i) && Valid(db)
  {
  }

  lemma DirectiveIsShaped(db: Db, o: Op)
    requires OpOk(db, o) && o.read.directive.Some?
    ensures Canon(o.read.directive.value.row.code) == o.read.directive.value.row.code
  {
  }

  // ------------------------------------------------------------------ storing at its place

  lemma FitsCarries(a: Db, b: Db, block: Block)
    requires Fits(a, block) && SameRow(a, b, block.key)
    ensures Fits(b, block)
  {
  }

  /** Legal saves over rows of the expected version are all stored. */
  lemma {:induction false} SavesApply(db: Db, blocks: seq<Block>)
    requires Unique(db) && Ledgers(db) && DistinctKeys(blocks) && AllFit(db, blocks)
    requires forall j :: 0 <= j < |blocks| ==>
      blocks[j].write.Save? && LiveAt(db, blocks[j].key) && db.rows[blocks[j].key].version == blocks[j].write.expected
    ensures ApplyAll(db, blocks).Ok?
    decreases |blocks|
  {
    if blocks == [] {
    } else {
      hide Unique, Ledgers, Legal, LegalFirst, ApplyBlock;
      var rest := blocks[1..];
      assert Fits(db, blocks[0]);
      LegalWriteIsStored(db, blocks[0]);
      var next := ApplyBlock(db, blocks[0]).value;
      BlockFrame(db, blocks[0]);
      BlockKeepsUnique(db, blocks[0]);
      BlockKeepsLedgers(db, blocks[0]);
      RestStillFits(db, blocks);
      forall j | 0 <= j < |rest|
        ensures rest[j].write.Save? && LiveAt(next, rest[j].key)
            && next.rows[rest[j].key].version == rest[j].write.expected
      {
        assert rest[j] == blocks[j + 1] && blocks[0].key != blocks[j + 1].key;
      }
      SavesApply(next, rest);
    }
  }

  lemma InsertApplies(db: Db, b: Block)
    requires b.write.Insert? && Fits(db, b) && b.key !in db.rows && !CodeTaken(db.rows, b.key.kind, b.write.row.code)
    requires b.key.kind == ExecutionConfirmation ==> !LinkTaken(db.rows, b.write.row.business.relatedCode)
    ensures ApplyAll(db, [b]).Ok?
  {
    assert [b][1..] == [];
    assert ApplyAll(db, [b]) == ApplyBlock(db, b);
  }

  lemma CreatesPlanOneInsert(req: Request, caller: Caller, id: nat, read: Reads)
    requires req.Create? && Plan(req, caller, id, read).Ok?
    ensures var blocks := Plan(req, caller, id, read).value; blocks == [blocks[0]] && blocks[0].write.Insert?
  {
    hide TrimSpace, EqualFold, Tidy, ValidFields, Canon, Logged, CopyFrom;
  }

  lemma BlockAtPlace(x: Execution, i: nat, db: Db, j: nat)
    requires Placed(x, i, db) && j < |BlocksOf(x, i)|
    ensures Fits(db, BlocksOf(x, i)[j])
    ensures BlocksOf(x, i)[j].write.Save? ==>
      var b := BlocksOf(x, i)[j]; LiveAt(db, b.key) && db.rows[b.key].version == b.write.expected
  {
    hide Orderly, Plan, ApplyAll, OpOk, Mirrors, SlotOf, StateAt, Valid, RowsWithin, Fits;
    CommitFacts(x, i);
    var b := BlocksOf(x, i)[j];
    CommitFits(StateAt(x, i), Handler(x, i), NewId(x, i), j);
    WrittenPlaced(x, i, db, b.key);
    FitsCarries(StateAt(x, i), db, b);
    if b.write.Save? { SavesMatch(StateAt(x, i), BlocksOf(x, i), j); }
  }

  /** At its place a commit is stored. */
  lemma StoredAtPlace(x: Execution, i: nat, db: Db)
    requires Placed(x, i, db) && !Handler(x, i).req.Delete?
    ensures ApplyAll(db, BlocksOf(x, i)).Ok?
  {
    hide Orderly, Plan, ApplyAll, OpOk, Mirrors, SlotOf, StateAt, Valid, RowsWithin, Fits;
    CommitFacts(x, i);
    PlacedMeans(x, i, db);
    ValidIsUnique(db);
    var o, blocks := Handler(x, i), BlocksOf(x, i);
    forall j | 0 <= j < |blocks| ensures Fits(db, blocks[j]) { BlockAtPlace(x, i, db, j); }
    if o.req.Create? {
      CreatesPlanOneInsert(o.req, o.caller, NewId(x, i), o.read);
      NewRowIsFresh(x, i, db, blocks[0]);
      InsertApplies(db, blocks[0]);
    } else {
      forall j | 0 <= j < |blocks|
        ensures blocks[j].write.Save? && LiveAt(db, blocks[j].key)
            && db.rows[blocks[j].key].version == blocks[j].write.expected
      {
        VersionedPlanSaves(o.req, o.caller, NewId(x, i), o.read, j);
        BlockAtPlace(x, i, db, j);
      }
      SavesApply(db, blocks);
    }
  }

  /** The rows of a plan after it was stored in two states that had the same of them. */
  lemma SameRowsAfter(a: Db, b: Db, blocks: seq<Block>, k: Key)
    requires DistinctKeys(blocks) && ApplyAll(a, blocks).Ok? && ApplyAll(b, blocks).Ok?
    requires WritesKey(blocks, k) && SameRow(a, b, k)
    ensures SameRow(ApplyAll(a, blocks).value, ApplyAll(b, blocks).value, k)
  {
    hide ApplyAll;
    var j :| 0 <= j < |blocks| && blocks[j].key == k;
    RowAfter(a, blocks, j);
    RowAfter(b, blocks, j);
  }

  /** What a commit makes of the state at its place. */
  ghost predicate LeadsTo(x: Execution, i: nat, db: Db, next: Db) {
    forall k :: if Writes(x, i, k) then SameRow(next, StateAt(x, i + 1), k) else SameRow(next, db, k)
  }

  lemma RowsAtPlace(x: Execution, i: nat, db: Db, next: Db)
    requires Placed(x, i, db) && ApplyAll(db, BlocksOf(x, i)) == Ok(next)
    ensures LeadsTo(x, i, db, next)
  {
    hide Orderly, Plan, ApplyAll, OpOk, Mirrors, SlotOf, StateAt, Valid, RowsWithin, BlocksOf, WritesKey;
    PlacedMeans(x, i, db);
    CommitFacts(x, i);
    forall k ensures if Writes(x, i, k) then SameRow(next, StateAt(x, i + 1), k) else SameRow(next, db, k) {
      if Writes(x, i, k) {
        WrittenPlaced(x, i, db, k);
        SameRowsAfter(db, StateAt(x, i), BlocksOf(x, i), k);
      } else {
        RowUntouched(db, BlocksOf(x, i), k);
      }
    }
  }

  /** At its place a deletion finds its row as its commit has found it. */
  lemma DeletionAtPlace(x: Execution, i: nat, db: Db) returns (next: Db)
    requires Placed(x, i, db) && Handler(x, i).req.Delete?
    ensures Atomic(db, Handler(x, i).req, Handler(x, i).caller, NewId(x, i)) == Ok(next)
    ensures LeadsTo(x, i, db, next)
  {
    hide Orderly, ApplyAll, OpOk, Mirrors, SlotOf, StateAt, Valid, RowsWithin;
    PlacedMeans(x, i, db);
    CommitFacts(x, i);
    DeletionFacts(x, i);
    OwnPlaced(x, i, db);
    var o := Handler(x, i);
    var now := Op(o.req, o.caller, ReadAll(db, o.req), STAGES);
    DeletionPlans(db, StateAt(x, i), o, NewId(x, i));
    DeleteCommitsIffLive(StateAt(x, i), o, NewId(x, i));
    DeleteCommitsIffLive(db, now, NewId(x, i));
    next := Effect(db, now, NewId(x, i)).value;
    forall k ensures if Writes(x, i, k) then SameRow(next, StateAt(x, i + 1), k) else SameRow(next, db, k) {
      DeletionWrites(x, i, k);
    }
  }

  lemma DeletionPlans(db: Db, stored: Db, o: Op, id: nat)
    requires o.req.Delete? && Plan(o.req, o.caller, id, o.read).Ok? && SameRow(db, stored, o.req.key)
        && LiveAt(stored, o.req.key)
    requires o.req.key.kind != GateUnit ==> DeletesWhatItRead(stored, o)
    ensures Plan(o.req, o.caller, id, ReadAll(db, o.req)).Ok?
  {
  }

  lemma DeletionWrites(x: Execution, i: nat, k: Key)
    requires Commits(x, i) && Handler(x, i).req.Delete?
        && Plan(Handler(x, i).req, Handler(x, i).caller, NewId(x, i), Handler(x, i).read).Ok?
    ensures Writes(x, i, k) <==> k == Handler(x, i).req.key
  {
    assert BlocksOf(x, i)[0].key == Handler(x, i).req.key;
  }

  /** At its place a handler is honest. */
  lemma HonestAtPlace(x: Execution, i: nat, db: Db)
    requires Placed(x, i, db)
    ensures Honest(db, Handler(x, i).req)
  {
    hide Orderly, ApplyAll, Mirrors, SlotOf, StateAt, Valid, RowsWithin, Plan, Follows;
    PlacedMeans(x, i, db);
    CommitFacts(x, i);
    if Versioned(Handler(x, i).req) {
      OwnPlaced(x, i, db);
      OwnRowMatched(StateAt(x, i), Handler(x, i), NewId(x, i));
    }
  }

  /** A commit as a one-step handler at its place. */
  lemma StepAtPlace(x: Execution, i: nat, db: Db) returns (next: Db)
    requires Placed(x, i, db)
    ensures Atomic(db, Handler(x, i).req, Handler(x, i).caller, NewId(x, i)) == Ok(next)
    ensures LeadsTo(x, i, db, next) && Valid(next) && RowsWithin(next, End(x))
  {
    hide Orderly, Plan, ApplyAll, OpOk, Mirrors, SlotOf, StateAt, Valid, RowsWithin, ReadAll, LeadsTo;
    PlacedMeans(x, i, db);
    if Handler(x, i).req.Delete? {
      next := DeletionAtPlace(x, i, db);
    } else {
      ReadsAtPlace(x, i, db);
      StoredAtPlace(x, i, db);
      CommitFacts(x, i);
      next := ApplyAll(db, BlocksOf(x, i)).value;
      RowsAtPlace(x, i, db, next);
    }
    HonestAtPlace(x, i, db);
    AtomicKeeps(db, Handler(x, i).req, Handler(x, i).caller, NewId(x, i));
    StaysWithin(x, i, db, next);
  }

  lemma StaysWithin(x: Execution, i: nat, db: Db, next: Db)
    requires Placed(x, i, db) && LeadsTo(x, i, db, next)
    ensures RowsWithin(next, End(x))
  {
    hide Orderly, SlotOf, StateAt, Valid, Mirrors, Writes;
    CommitEvent(x, i);
    Segment(x, i + 1, |x.events|);
    EarlierIsWithin(StateAt(x, i + 1), End(x));
    forall k | k in next.rows
      ensures k in End(x).rows && next.rows[k].code == End(x).rows[k].code
      ensures k.kind == ExecutionConfirmation ==>
          next.rows[k].business.relatedCode == End(x).rows[k].business.relatedCode
    {
      assert if Writes(x, i, k) then SameRow(next, StateAt(x, i + 1), k) else SameRow(next, db, k);
    }
  }
}
