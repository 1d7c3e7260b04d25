/** The place of every commit in a serial order, and which writers of a row come before
    it: rows are written in commit order, and what a commit has read and does not write
    is, at its place, as it was read. */
module Places {
  import opened Text
  import opened Statuses
  import opened Records
  import opened Transactions
  import opened Handlers
  import opened Interleaving
  import opened Versions
  import opened Lifecycle
  import opened Validity
  import opened Agreement
  import opened Reachability
  import opened Refinement
  import opened Guarantees
  import opened Receipts
  import opened Exactness
  import opened DecisionPoints
  import opened Executions

  // ------------------------------------------------------------------- places in the order

  predicate EditsReceipt(req: Request) {
    (req.Create? || req.Update?) && KindOf(req) == ExecutionConfirmation
  }

  /** The event that decides commit `i`: the reading of the row it depends on and does
      not write, if there is one, or else the commit itself. */
  ghost function Base(x: Execution, i: nat): nat {
    var o := Handler(x, i);
    if EditsReceipt(o.req) then TimesOf(x, i).linked
    else if !o.req.Delete? && o.read.gate.Some?
        && !GateWritten(o.req, o.caller, NewId(x, i), o.read) then TimesOf(x, i).gated
    else i
  }

  lemma BaseIsEvent(x: Execution, i: nat)
    requires Orderly(x) && Commits(x, i)
    ensures Base(x, i) <= i < |x.events|
    ensures Base(x, i) < i ==> TimesOf(x, i).own <= Base(x, i) && x.events[Base(x, i)] == Read(x.events[i].op)
  {
    hide Orderly, Handler, Succeeds, ReadFrom, InFlightSince, GateWritten;
    TimesAre(x, i);
  }

  /** Commit `a` ends the execution of directive `d`. */
  ghost predicate Ends(x: Execution, a: nat, d: Key) {
    && Commits(x, a) && d.kind == OperationDirective
    && d in StateAt(x, a).rows && StateAt(x, a).rows[d].status == Executing
    && d in StateAt(x, a + 1).rows && StateAt(x, a + 1).rows[d].status != Executing
  }

  /** Commit `i` edits a confirmation of a directive whose execution `a` ends, and has
      read the directive only after `a` was decided. */
  ghost predicate Overtaken(x: Execution, i: nat, a: nat) {
    && Commits(x, i) && EditsReceipt(Handler(x, i).req) && Handler(x, i).read.directive.Some?
    && Ends(x, a, Handler(x, i).read.directive.value.key)
    && Base(x, a) < TimesOf(x, i).linked
  }

  datatype Slot = Slot(main: nat, sub: nat)

  predicate Precedes(a: Slot, b: Slot) {
    a.main < b.main || (a.main == b.main && a.sub < b.sub)
  }

  /** The place of commit `i` in the serial order: an edit that was overtaken goes just
      before the commit that overtook it. */
  ghost function SlotOf(x: Execution, i: nat): Slot {
    if exists a :: Overtaken(x, i, a) then
      var a :| Overtaken(x, i, a);
      Slot(Base(x, a), TimesOf(x, i).linked)
    else
      Slot(Base(x, i), |x.events|)
  }

  lemma SlotIs(x: Execution, i: nat)
    ensures SlotOf(x, i) == Slot(Base(x, i), |x.events|) ||
            (exists a :: Overtaken(x, i, a) && SlotOf(x, i) == Slot(Base(x, a), TimesOf(x, i).linked))
    ensures (exists a :: Overtaken(x, i, a)) ==>
              SlotOf(x, i) != Slot(Base(x, i), |x.events|) || TimesOf(x, i).linked == |x.events|
    ensures !(exists a :: Overtaken(x, i, a)) ==> SlotOf(x, i) == Slot(Base(x, i), |x.events|)
  {
    hide Overtaken, Base;
  }

  lemma SlotNotLater(x: Execution, i: nat)
    requires Orderly(x) && Commits(x, i)
    ensures SlotOf(x, i).main <= i
  {
    hide Orderly, Commits, SlotOf, Ends, Base;
    SlotIs(x, i);
    BaseIsEvent(x, i);
    TimesInOrder(x, i);
  }

  // ------------------------------------------------------------------- ending executions

  lemma EndsOnce(x: Execution, a: nat, b: nat, d: Key)
    requires Orderly(x) && Ends(x, a, d) && Ends(x, b, d)
    ensures a == b
  {
    if a < b { EndedStays(x, a, d, b); } else if b < a { EndedStays(x, b, d, a); }
  }

  lemma EndedStays(x: Execution, a: nat, d: Key, t: nat)
    requires Orderly(x) && Ends(x, a, d) && a < t <= |x.events|
    ensures d in StateAt(x, t).rows && StateAt(x, t).rows[d].status != Executing
  {
    hide Orderly, StateAt, Valid;
    Segment(x, a, a + 1);
    Segment(x, a + 1, t);
    assert Follows(d.kind, StateAt(x, a).rows[d], StateAt(x, a + 1).rows[d]);
    assert Follows(d.kind, StateAt(x, a + 1).rows[d], StateAt(x, t).rows[d]);
    EndIsFinal(StateAt(x, a + 1).rows[d].status, StateAt(x, t).rows[d].status);
  }

  /** Who writes a directive. */
  lemma DirectiveWriteMoves(req: Request, caller: Caller, id: nat, read: Reads, j: nat)
    requires Plan(req, caller, id, read).Ok? && j < |Plan(req, caller, id, read).value| && Typed(read)
    requires Plan(req, caller, id, read).value[j].key.kind == OperationDirective
    ensures var b := Plan(req, caller, id, read).value[j];
            match b.write
            case Insert(_) => req.Create?
            case Remove => req.Delete? && b.key == req.key && read.primary.Some? && read.primary.value.status == Draft
            case Save(_, row) =>
              || (req.Update? && b.key == req.key && read.primary.Some? && read.primary.value.status == Draft)
              || (req.Transition? && b.key == req.key && read.primary.Some?
                  && CanTransition(DIRECTIVE_TRANSITIONS, read.primary.value.status, row.status))
              || (req.Transition? && row.status in {Completed, Aborted})
  {
    hide TrimSpace, EqualFold, Tidy, ValidFields, Canon, Logged, CopyFrom;
  }

  lemma NoSelfEdge(s: Status)
    ensures !CanTransition(DIRECTIVE_TRANSITIONS, s, s)
  {
  }

  /** Whoever writes an executing directive ends its execution. */
  lemma WriterEnds(x: Execution, a: nat, d: Key)
    requires Orderly(x) && Writes(x, a, d) && d.kind == OperationDirective
    requires d in StateAt(x, a).rows && StateAt(x, a).rows[d].status == Executing
    ensures Ends(x, a, d)
  {
    hide Orderly, Plan, ApplyAll, Valid, OpOk, CanTransition;
    CommitFacts(x, a);
    DeletionFacts(x, a);
    var o, blocks := Handler(x, a), BlocksOf(x, a);
    var j :| 0 <= j < |blocks| && blocks[j].key == d;
    OpOkInFlight(StateAt(x, a), o);
    DirectiveWriteMoves(o.req, o.caller, NewId(x, a), o.read, j);
    RowAfter(StateAt(x, a), blocks, j);
    if blocks[j].write.Save? {
      SaveOverwritesItsSource(StateAt(x, a), o, NewId(x, a), j);
      NoSelfEdge(Executing);
    }
  }

  lemma DeletionFacts(x: Execution, i: nat)
    requires Orderly(x) && Commits(x, i)
    ensures DeletesNonGate(Handler(x, i).req) ==> DeletesWhatItRead(StateAt(x, i), Handler(x, i))
  {
  }

  // -------------------------------------------------------------------- distinct places

  lemma BasesDiffer(x: Execution, i: nat, l: nat)
    requires Orderly(x) && Commits(x, i) && Commits(x, l) && Base(x, i) == Base(x, l)
    ensures i == l
  {
    hide Orderly, Commits, Base, TimesOf;
    BaseIsEvent(x, i);
    BaseIsEvent(x, l);
    var t := Base(x, i);
    if t < i && t < l {
      OneCommitPerRead(x, i, l, t);
    } else {
      CommitEvent(x, i);
      CommitEvent(x, l);
    }
  }

  lemma CommitEvent(x: Execution, i: nat)
    requires Commits(x, i)
    ensures i < |x.events| && x.events[i].Commit?
  {
  }

  /** The reading of an edit's directive is nobody else's deciding event. */
  lemma EditReadIsOwn(x: Execution, i: nat, l: nat)
    requires Orderly(x) && Commits(x, i) && EditsReceipt(Handler(x, i).req) && Commits(x, l)
    requires TimesOf(x, i).linked == Base(x, l)
    ensures i == l
  {
    assert Base(x, i) == TimesOf(x, i).linked;
    BasesDiffer(x, i, l);
  }

  lemma SlotsDiffer(x: Execution, i: nat, l: nat)
    requires Orderly(x) && Commits(x, i) && Commits(x, l) && SlotOf(x, i) == SlotOf(x, l)
    ensures i == l
  {
    hide Orderly, Commits, Base, SlotOf, TimesOf, Ends;
    TimesInOrder(x, i);
    TimesInOrder(x, l);
    SlotIs(x, i);
    SlotIs(x, l);
    if SlotOf(x, i).sub == |x.events| {
      BasesDiffer(x, i, l);
    } else {
      BothEditsAtOneRead(x, i, l);
    }
  }

  lemma BothEditsAtOneRead(x: Execution, i: nat, l: nat)
    requires Orderly(x) && Commits(x, i) && Commits(x, l) && EditsReceipt(Handler(x, i).req)
        && EditsReceipt(Handler(x, l).req)
    requires TimesOf(x, i).linked == TimesOf(x, l).linked
    ensures i == l
  {
    EditReadIsOwn(x, i, l);
  }

  // -------------------------------------------------------------- writers in commit order

  lemma NoEdgeBack(kind: Kind, from: Status, to: Status)
    requires kind != GateUnit && CanTransition(GraphOf(kind), from, to)
    ensures to != InitialStatus(kind)
  {
  }

  lemma TransitionPlanMoves(req: Request, caller: Caller, id: nat, read: Reads) returns (b: Block)
    requires req.Transition? && req.key.kind != GateUnit && Plan(req, caller, id, read).Ok?
    ensures var blocks := Plan(req, caller, id, read).value; blocks != [] && blocks[0] == b
    ensures b.key == req.key && b.write.Save? && read.primary.Some?
    ensures CanTransition(GraphOf(req.key.kind), read.primary.value.status, b.write.row.status)
  {
    hide TrimSpace, EqualFold, Logged;
    b := Plan(req, caller, id, read).value[0];
  }

  /** Who writes a confirmation that is pending afterwards: only edits. */
  lemma ReceiptWriteMoves(req: Request, caller: Caller, id: nat, read: Reads, j: nat)
    requires Plan(req, caller, id, read).Ok? && j < |Plan(req, caller, id, read).value| && Typed(read)
    requires Plan(req, caller, id, read).value[j].key.kind == ExecutionConfirmation
    ensures var b := Plan(req, caller, id, read).value[j];
            match b.write
            case Insert(_) => EditsReceipt(req)
            case Remove => true
            case Save(_, row) => EditsReceipt(req) || row.status != Pending
  {
    hide Plan, CanTransition, GraphOf;
    ReceiptBlockIsOwn(req, caller, id, read, j);
    if req.Delete? {
      RemoveMeansDelete(req, caller, id, read, j);
    } else if req.Transition? {
      var b := TransitionPlanMoves(req, caller, id, read);
      NoEdgeBack(req.key.kind, read.primary.value.status, b.write.row.status);
    }
  }

  /** The writer of a confirmation that a later update saves is an edit too. */
  lemma EarlierWriterEdits(x: Execution, i: nat, l: nat, c: Key)
    requires Orderly(x) && Writes(x, i, c) && c.kind == ExecutionConfirmation && i < l <= |x.events|
    requires LiveAt(StateAt(x, l), c) && StateAt(x, l).rows[c].status == Pending
    ensures EditsReceipt(Handler(x, i).req)
  {
    hide Orderly, Plan, ApplyAll, Valid, OpOk, EditsReceipt;
    CommitFacts(x, i);
    Segment(x, i + 1, l);
    var o, blocks := Handler(x, i), BlocksOf(x, i);
    var j :| 0 <= j < |blocks| && blocks[j].key == c;
    OpOkInFlight(StateAt(x, i), o);
    ReceiptWriteMoves(o.req, o.caller, NewId(x, i), o.read, j);
    RowAfter(StateAt(x, i), blocks, j);
    assert Newer(StateAt(x, i + 1).rows[c], StateAt(x, l).rows[c])
        && Follows(c.kind, StateAt(x, i + 1).rows[c], StateAt(x, l).rows[c]);
  }

  /** An edit writes one confirmation, which names the directive it has read. */
  lemma EditFacts(x: Execution, i: nat)
    requires Orderly(x) && Commits(x, i) && EditsReceipt(Handler(x, i).req)
    ensures var o := Handler(x, i);
            && o.read.directive.Some? && o.read.directive.value.row.status == Executing
            && |BlocksOf(x, i)| == 1 && BlocksOf(x, i)[0].key.kind == ExecutionConfirmation
            && (o.req.Create? ==> BlocksOf(x, i)[0].write.Insert?)
            && (o.req.Update? ==> BlocksOf(x, i)[0].write.Save? && BlocksOf(x, i)[0].key == o.req.key
                                  && o.read.primary.Some? && o.read.primary.value.status == Pending)
            && Names(StateAt(x, i + 1), BlocksOf(x, i)[0].key, o.read.directive.value.key)
  {
    hide Orderly, ApplyAll, Valid;
    CommitFacts(x, i);
    var o := Handler(x, i);
    EditPlan(o.req, o.caller, NewId(x, i), o.read);
    CopiedColumnsKept(StateAt(x, i), o);
    RowAfter(StateAt(x, i), BlocksOf(x, i), 0);
    EditKeepsDirective(x, i, o.read.directive.value.key);
  }

  lemma EditKeepsDirective(x: Execution, i: nat, d: Key)
    requires Orderly(x) && Commits(x, i) && |BlocksOf(x, i)| == 1 && BlocksOf(x, i)[0].key.kind == ExecutionConfirmation
    requires d.kind == OperationDirective
    ensures SameRow(StateAt(x, i), StateAt(x, i + 1), d)
  {
    hide Orderly, Commits, BlocksOf, StateAt;
    CommitEvent(x, i);
    UnwrittenStep(x, i, d);
  }

  lemma EditPlan(req: Request, caller: Caller, id: nat, read: Reads)
    requires EditsReceipt(req) && Plan(req, caller, id, read).Ok?
    ensures read.directive.Some? && read.directive.value.row.status == Executing
    ensures var blocks := Plan(req, caller, id, read).value;
            && |blocks| == 1 && blocks[0].key.kind == ExecutionConfirmation
            && (req.Create? ==> blocks[0].write.Insert?)
            && (req.Update? ==> blocks[0].write.Save? && blocks[0].key == req.key
                                && read.primary.Some? && read.primary.value.status == Pending)
            && !blocks[0].write.Remove? && blocks[0].write.row.business.relatedCode == read.directive.value.row.code
  {
    hide TrimSpace, EqualFold, Tidy, ValidFields, Canon, Logged;
  }

  ghost predicate EditOf(x: Execution, i: nat, c: Key, d: Key) {
    && Commits(x, i) && EditsReceipt(Handler(x, i).req) && Handler(x, i).read.directive.Some?
    && Handler(x, i).read.directive.value.key == d && Names(StateAt(x, i + 1), c, d)
  }

  lemma EditNames(x: Execution, i: nat, c: Key) returns (d: Key)
    requires Orderly(x) && Writes(x, i, c) && EditsReceipt(Handler(x, i).req)
    ensures EditOf(x, i, c, d)
  {
    hide Orderly, Plan, Names, StateAt;
    EditFacts(x, i);
    d := Handler(x, i).read.directive.value.key;
  }

  lemma SameDirective(a: Db, b: Db, c: Key, d: Key, e: Key)
    requires Evolves(a, b) && Names(a, c, d) && Names(b, c, e) && Unique(b)
    ensures d == e
  {
    NamesKept(a, b, c, d);
  }

  lemma EditOfMeans(x: Execution, i: nat, c: Key, d: Key)
    requires EditOf(x, i, c, d)
    ensures Commits(x, i) && EditsReceipt(Handler(x, i).req)
    ensures Handler(x, i).read.directive.Some? && Handler(x, i).read.directive.value.key == d
  {
  }

  /** Two edits of one confirmation have read the same directive. */
  lemma EditsOfOneDirective(x: Execution, i: nat, l: nat, c: Key) returns (d: Key)
    requires Orderly(x) && Writes(x, i, c) && Writes(x, l, c) && i < l
    requires EditsReceipt(Handler(x, i).req) && EditsReceipt(Handler(x, l).req)
    ensures EditOf(x, i, c, d) && EditOf(x, l, c, d)
  {
    hide Orderly, Commits, Handler, EditsReceipt, BlocksOf, WritesKey, Valid, Evolves, Unique, Names, StateAt;
    CommitEvent(x, l);
    d := EditNames(x, i, c);
    var e := EditNames(x, l, c);
    Segment(x, i + 1, l + 1);
    ValidIsUnique(StateAt(x, l + 1));
    SameDirective(StateAt(x, i + 1), StateAt(x, l + 1), c, d, e);
  }

  /** An edit of directive `d` is overtaken by a commit that ends `d` and was decided
      before the edit read `d`. */
  lemma OvertakenIff(x: Execution, i: nat, d: Key)
    requires Commits(x, i) && EditsReceipt(Handler(x, i).req)
    requires Handler(x, i).read.directive.Some? && Handler(x, i).read.directive.value.key == d
    ensures forall a :: Overtaken(x, i, a) <==> Ends(x, a, d) && Base(x, a) < TimesOf(x, i).linked
    ensures Base(x, i) == TimesOf(x, i).linked
  {
  }

  /** Edits of one confirmation keep their order, overtaken or not. */
  lemma EditsInOrder(x: Execution, i: nat, l: nat, c: Key)
    requires Orderly(x) && Writes(x, i, c) && Writes(x, l, c) && i < TimesOf(x, l).own
    requires EditsReceipt(Handler(x, i).req) && EditsReceipt(Handler(x, l).req)
    ensures Precedes(SlotOf(x, i), SlotOf(x, l))
  {
    hide Orderly, BlocksOf, WritesKey, Commits, Overtaken, Ends, EditOf, Base, TimesOf, SlotOf, Handler;
    TimesInOrder(x, i);
    TimesInOrder(x, l);
    var d := EditsOfOneDirective(x, i, l, c);
    EditOfMeans(x, i, c, d);
    EditOfMeans(x, l, c, d);
    OvertakenIff(x, i, d);
    OvertakenIff(x, l, d);
    SlotIs(x, i);
    SlotIs(x, l);
    if SlotOf(x, l) != Slot(Base(x, l), |x.events|) {
      var b :| Overtaken(x, l, b) && SlotOf(x, l) == Slot(Base(x, b), TimesOf(x, l).linked);
      if SlotOf(x, i) == Slot(Base(x, i), |x.events|) {
        assert !Overtaken(x, i, b);
        EditNotDecidedWith(x, i, b, d, c);
      } else {
        var a :| Overtaken(x, i, a) && SlotOf(x, i) == Slot(Base(x, a), TimesOf(x, i).linked);
        EndsOnce(x, a, b, d);
      }
    }
  }

  lemma EditNotDecidedWith(x: Execution, i: nat, b: nat, d: Key, c: Key)
    requires Orderly(x) && Commits(x, i) && EditOf(x, i, c, d) && Ends(x, b, d)
    ensures TimesOf(x, i).linked != Base(x, b)
  {
    hide Orderly, Base, TimesOf, Commits;
    if TimesOf(x, i).linked == Base(x, b) {
      EditReadIsOwn(x, i, b);
      EditFacts(x, i);
      EditKeepsDirective(x, i, d);
    }
  }

  /** A row is saved or removed only after it was last written. */
  lemma ReadAfterWrite(x: Execution, i: nat, l: nat, k: Key, j: nat, b: Block) returns (r: nat)
    requires Orderly(x) && Writes(x, i, k) && i < l && Commits(x, l)
    requires j < |BlocksOf(x, l)| && BlocksOf(x, l)[j] == b && b.key == k && b.write.Save?
    ensures i < r <= TimesOf(x, l).gated
    ensures !Handler(x, l).req.Create? && k == Handler(x, l).req.key ==> r == TimesOf(x, l).own
    ensures StillHeld(x, k, r, l)
  {
    hide Orderly, BlocksOf, WritesKey, StateAt, TimesOf, Handler, StillHeld;
    TimesInOrder(x, l);
    CommitEvent(x, l);
    r := SavedRowWasRead(x, l, j, b);
    if r <= i { HeldSinceRead(x, l, k, r, i); }
  }

  /** No later commit creates a row that was written before. */
  lemma CreatedOnce(x: Execution, i: nat, l: nat, k: Key, j: nat)
    requires Orderly(x) && Writes(x, i, k) && i < l && Commits(x, l)
    requires j < |BlocksOf(x, l)| && BlocksOf(x, l)[j].key == k
    ensures !BlocksOf(x, l)[j].write.Insert?
  {
    hide Orderly, Writes, Plan, ApplyAll, Valid, OpOk;
    CommitFacts(x, l);
    WritesChange(x, i, k);
    Segment(x, i + 1, l);
    RowAfter(StateAt(x, l), BlocksOf(x, l), j);
  }

  lemma RemovesAtCommit(x: Execution, l: nat, j: nat)
    requires Orderly(x) && Commits(x, l) && j < |BlocksOf(x, l)| && BlocksOf(x, l)[j].write.Remove?
    ensures SlotOf(x, l) == Slot(l, |x.events|)
  {
    hide Orderly, TimesOf;
    RemoveMeansDelete(Handler(x, l).req, Handler(x, l).caller, NewId(x, l), Handler(x, l).read, j);
  }

  /** Rows are written in commit order: of two commits that write a row, the earlier one
      comes first in the serial order. */
  lemma WritesInOrder(x: Execution, i: nat, l: nat, k: Key)
    requires Orderly(x) && Writes(x, i, k) && Writes(x, l, k) && i < l
    ensures Precedes(SlotOf(x, i), SlotOf(x, l))
  {
    hide Orderly, BlocksOf, Overtaken, TimesOf, SlotOf, Base, Handler, Commits;
    SlotNotLater(x, i);
    var j :| 0 <= j < |BlocksOf(x, l)| && BlocksOf(x, l)[j].key == k;
    var b := BlocksOf(x, l)[j];
    CreatedOnce(x, i, l, k, j);
    if b.write.Remove? {
      RemovesAtCommit(x, l, j);
    } else {
      var r := ReadAfterWrite(x, i, l, k, j, b);
      if EditsReceipt(Handler(x, l).req) {
        SavingEditInOrder(x, i, l, k, j, b, r);
      } else {
        PlainSlot(x, l, r);
      }
    }
  }

  /** A commit that is not an edit of a confirmation comes at or after its last reading. */
  lemma PlainSlot(x: Execution, l: nat, r: nat)
    requires Orderly(x) && Commits(x, l) && !EditsReceipt(Handler(x, l).req) && r <= TimesOf(x, l).gated
    ensures SlotOf(x, l) == Slot(Base(x, l), |x.events|) && r <= Base(x, l)
  {
    hide Orderly, Handler, TimesOf, Base, SlotOf, Ends;
    SlotIs(x, l);
    BaseIsEvent(x, l);
    TimesInOrder(x, l);
    PlainBase(x, l);
  }

  lemma PlainBase(x: Execution, l: nat)
    requires !EditsReceipt(Handler(x, l).req)
    ensures Base(x, l) == l || Base(x, l) == TimesOf(x, l).gated
  {
  }

  lemma SavingEditInOrder(x: Execution, i: nat, l: nat, k: Key, j: nat, b: Block, r: nat)
    requires Orderly(x) && Writes(x, i, k) && Writes(x, l, k) && i < l && EditsReceipt(Handler(x, l).req)
    requires j < |BlocksOf(x, l)| && BlocksOf(x, l)[j] == b && b.key == k && b.write.Save?
    requires i < r && StillHeld(x, k, r, l)
    requires !Handler(x, l).req.Create? && k == Handler(x, l).req.key ==> r == TimesOf(x, l).own
    ensures Precedes(SlotOf(x, i), SlotOf(x, l))
  {
    hide Orderly, BlocksOf, WritesKey, Overtaken, TimesOf, SlotOf, Base, Handler, Commits, StateAt;
    EditFacts(x, l);
    EditSavesPending(x, l);
    CommitEvent(x, l);
    EarlierWriterEdits(x, i, l, k);
    EditsInOrder(x, i, l, k);
  }

  lemma EditSavesPending(x: Execution, l: nat)
    requires Orderly(x) && Commits(x, l) && EditsReceipt(Handler(x, l).req) && Handler(x, l).req.Update?
    ensures LiveAt(StateAt(x, l), Handler(x, l).req.key) && StateAt(x, l).rows[Handler(x, l).req.key].status == Pending
  {
    hide Orderly, ApplyAll, Valid, OpOk, TimesOf, Plan;
    EditFacts(x, l);
    CommitFacts(x, l);
    OwnRowReadAgain(StateAt(x, l), Handler(x, l), NewId(x, l));
  }

  // ------------------------------------------------------------------- unwritten gates

  /** Who writes a gate: gate handlers, and handlers that have read it. */
  lemma GateWriters(req: Request, caller: Caller, id: nat, read: Reads, j: nat)
    requires Plan(req, caller, id, read).Ok? && j < |Plan(req, caller, id, read).value| && Typed(read)
    requires Plan(req, caller, id, read).value[j].key.kind == GateUnit
    ensures KindOf(req) == GateUnit || (req.Transition? && read.gate.Some?
        && Plan(req, caller, id, read).value[j].key == read.gate.value.key)
    ensures !EditsReceipt(req)
  {
    hide TrimSpace, EqualFold, Tidy, ValidFields, Canon, Logged, CopyFrom;
  }

  lemma GateWriterSlot(x: Execution, l: nat, g: Key)
    requires Orderly(x) && Writes(x, l, g) && g.kind == GateUnit
    ensures SlotOf(x, l) == Slot(l, |x.events|)
  {
    hide Orderly, Plan, ApplyAll, Valid, OpOk, TimesOf;
    CommitFacts(x, l);
    var o, blocks := Handler(x, l), BlocksOf(x, l);
    var j :| 0 <= j < |blocks| && blocks[j].key == g;
    OpOkInFlight(StateAt(x, l), o);
    GateWriters(o.req, o.caller, NewId(x, l), o.read, j);
    if o.read.gate.Some? && !o.req.Delete? {
      GateHandlersReadNoGate(o);
      assert GateWritten(o.req, o.caller, NewId(x, l), o.read);
    }
  }

  lemma GateHandlersReadNoGate(o: Op)
    requires Addressed(o)
    ensures o.read.gate.Some? ==> KindOf(o.req) != GateUnit
  {
  }

  // --------------------------------------------------------------------- cuts and places

  /** Just the writers of `k` before time `t` come before place `s`. */
  ghost predicate Cut(x: Execution, k: Key, s: Slot, t: nat) {
    t <= |x.events| && forall i: nat :: Writes(x, i, k) ==> (i < t <==> Precedes(SlotOf(x, i), s))
  }

  /** The rows a commit writes are, at its place, as they were at its commit. */
  lemma WrittenCut(x: Execution, i: nat, k: Key)
    requires Orderly(x) && Writes(x, i, k)
    ensures Cut(x, k, SlotOf(x, i), i)
  {
    hide Orderly, SlotOf, BlocksOf, WritesKey, Commits;
    CommitEvent(x, i);
    forall l: nat | Writes(x, l, k) ensures l < i <==> Precedes(SlotOf(x, l), SlotOf(x, i)) {
      if l < i { WritesInOrder(x, l, i, k); } else if i < l { WritesInOrder(x, i, l, k); }
    }
  }

  /** A gate that a commit reads and does not write is, at the commit's place, as it was
      read. */
  lemma GateCut(x: Execution, i: nat, g: Key)
    requires Orderly(x) && Commits(x, i) && g.kind == GateUnit && !EditsReceipt(Handler(x, i).req)
    requires Base(x, i) == TimesOf(x, i).gated
    ensures Cut(x, g, SlotOf(x, i), TimesOf(x, i).gated)
  {
    hide Orderly, SlotOf, BlocksOf, WritesKey, Base, TimesOf, Handler, Succeeds;
    TimesInOrder(x, i);
    PlainSlot(x, i, TimesOf(x, i).gated);
    BaseIsEvent(x, i);
    forall l: nat | Writes(x, l, g) ensures l < TimesOf(x, i).gated <==> Precedes(SlotOf(x, l), SlotOf(x, i)) {
      GateWriterSlot(x, l, g);
      CommitEvent(x, l);
    }
  }

  lemma DirectiveWriterIsPlain(x: Execution, l: nat, d: Key)
    requires Orderly(x) && Writes(x, l, d) && d.kind == OperationDirective
    ensures SlotOf(x, l) == Slot(Base(x, l), |x.events|) && Base(x, l) <= l < |x.events|
  {
    hide Orderly, SlotOf, Base, TimesOf, Overtaken;
    assert !EditsReceipt(Handler(x, l).req) by { if EditsReceipt(Handler(x, l).req) { EditFacts(x, l); } }
    TimesInOrder(x, l);
    PlainSlot(x, l, 0);
    BaseIsEvent(x, l);
  }

  /** The first commit from `t` on that writes `k`, if any does before `l`. */
  lemma {:induction false} FirstWriter(x: Execution, t: nat, l: nat, k: Key) returns (a: nat)
    requires Writes(x, l, k) && t <= l
    ensures t <= a <= l && Writes(x, a, k) && forall m :: t <= m < a ==> !Writes(x, m, k)
    decreases l - t
  {
    hide Writes;
    if Writes(x, t, k) {
      a := t;
    } else {
      a := FirstWriter(x, t + 1, l, k);
    }
  }

  /** The first writer of a directive that is executing at `t` ends its execution. */
  lemma FirstWriterEnds(x: Execution, t: nat, a: nat, d: Key)
    requires Orderly(x) && t <= a && Writes(x, a, d) && d.kind == OperationDirective
    requires forall m :: t <= m < a ==> !Writes(x, m, d)
    requires d in StateAt(x, t).rows && StateAt(x, t).rows[d].status == Executing
    ensures Ends(x, a, d) && SameRow(StateAt(x, t), StateAt(x, a), d)
  {
    hide Orderly, Writes, Ends, StateAt;
    WritesEvent(x, a, d);
    Unwritten(x, t, a, d);
    WriterEnds(x, a, d);
  }

  lemma WritesEvent(x: Execution, i: nat, k: Key)
    requires Writes(x, i, k)
    ensures i < |x.events| && Commits(x, i)
  {
  }

  lemma EndingWrites(x: Execution, a: nat, d: Key)
    requires Orderly(x) && Ends(x, a, d)
    ensures Writes(x, a, d) && a < |x.events|
  {
    hide Orderly, BlocksOf, Handler;
    CommitEvent(x, a);
    if !Writes(x, a, d) { UnwrittenStep(x, a, d); }
  }

  lemma NotOvertakenCut(x: Execution, i: nat, d: Key)
    requires Orderly(x) && Commits(x, i) && EditsReceipt(Handler(x, i).req)
    requires d.kind == OperationDirective && d in StateAt(x, TimesOf(x, i).linked).rows
    requires StateAt(x, TimesOf(x, i).linked).rows[d].status == Executing
    requires forall a :: Ends(x, a, d) ==> TimesOf(x, i).linked <= Base(x, a)
    ensures Cut(x, d, Slot(TimesOf(x, i).linked, |x.events|), TimesOf(x, i).linked)
  {
    hide Orderly, SlotOf, BlocksOf, WritesKey, Base, TimesOf, Handler, Commits, StateAt, Ends;
    TimesInOrder(x, i);
    var t := TimesOf(x, i).linked;
    forall l: nat | Writes(x, l, d) ensures l < t <==> Precedes(SlotOf(x, l), Slot(t, |x.events|)) {
      DirectiveWriterIsPlain(x, l, d);
      if t <= l {
        var a := FirstWriter(x, t, l, d);
        FirstWriterEnds(x, t, a, d);
        DirectiveWriterIsPlain(x, a, d);
        if a < l { WritesInOrder(x, a, l, d); }
      }
    }
  }

  lemma OvertakenCut(x: Execution, i: nat, d: Key, a: nat)
    requires Orderly(x) && Commits(x, i) && Ends(x, a, d)
    ensures Cut(x, d, Slot(Base(x, a), TimesOf(x, i).linked), a)
  {
    hide Orderly, SlotOf, BlocksOf, WritesKey, Base, TimesOf, Handler, Commits, StateAt, Ends;
    TimesInOrder(x, i);
    EndingWrites(x, a, d);
    EndingKind(x, a, d);
    DirectiveWriterIsPlain(x, a, d);
    forall l: nat | Writes(x, l, d) ensures l < a <==> Precedes(SlotOf(x, l), Slot(Base(x, a), TimesOf(x, i).linked)) {
      DirectiveWriterIsPlain(x, l, d);
      if l < a {
        WritesInOrder(x, l, a, d);
      } else if a < l {
        WritesInOrder(x, a, l, d);
      }
    }
  }

  lemma EndingKind(x: Execution, a: nat, d: Key)
    requires Ends(x, a, d)
    ensures d.kind == OperationDirective && Commits(x, a)
  {
  }

  /** The directive that an edit reads is, at the edit's place, as it was read. */
  lemma DirectiveCut(x: Execution, i: nat) returns (t: nat)
    requires Orderly(x) && Commits(x, i) && EditsReceipt(Handler(x, i).req)
    ensures Handler(x, i).read.directive.Some?
    ensures var d := Handler(x, i).read.directive.value;
            Cut(x, d.key, SlotOf(x, i), t) && LiveAt(StateAt(x, t), d.key) && StateAt(x, t).rows[d.key] == d.row
  {
    hide Orderly, SlotOf, BlocksOf, WritesKey, Base, TimesOf, Commits, StateAt, Ends, Cut;
    EditFacts(x, i);
    var d := Handler(x, i).read.directive.value;
    EditReadsDirective(x, i);
    TimesInOrder(x, i);
    OvertakenIff(x, i, d.key);
    SlotIs(x, i);
    if !(exists a :: Overtaken(x, i, a)) {
      t := TimesOf(x, i).linked;
      assert forall a :: Ends(x, a, d.key) ==> !Overtaken(x, i, a);
      NotOvertakenCut(x, i, d.key);
    } else {
      var a :| Overtaken(x, i, a) && SlotOf(x, i) == Slot(Base(x, a), TimesOf(x, i).linked);
      t := a;
      OvertakenCut(x, i, d.key, a);
      EndsAfterReading(x, a, d.key, TimesOf(x, i).linked);
    }
  }

  lemma EditReadsDirective(x: Execution, i: nat)
    requires Orderly(x) && Commits(x, i) && EditsReceipt(Handler(x, i).req) && Handler(x, i).read.directive.Some?
    ensures var d := Handler(x, i).read.directive.value;
            && d.key.kind == OperationDirective
            && LiveAt(StateAt(x, TimesOf(x, i).linked), d.key) && StateAt(x, TimesOf(x, i).linked).rows[d.key] == d.row
  {
    hide Orderly, TimesOf, InFlightSince, Succeeds, StateAt;
    TimesAre(x, i);
    CommitFacts(x, i);
  }

  /** A directive that was read executing was not ended before. */
  lemma EndsAfterReading(x: Execution, a: nat, d: Key, t: nat)
    requires Orderly(x) && Ends(x, a, d) && t <= |x.events| && d in StateAt(x, t).rows
        && StateAt(x, t).rows[d].status == Executing
    ensures t <= a && SameRow(StateAt(x, t), StateAt(x, a), d)
  {
    hide Orderly, StateAt, Writes, Ends;
    EndingWrites(x, a, d);
    EndingKind(x, a, d);
    if a < t {
      EndedStays(x, a, d, t);
    } else {
      var b := FirstWriter(x, t, a, d);
      FirstWriterEnds(x, t, b, d);
      EndsOnce(x, a, b, d);
    }
  }
}
