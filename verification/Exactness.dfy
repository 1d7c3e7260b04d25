/** Exactly when a commit is the one-step handler on the stored state: what must
    still hold of the rows it has read and does not write. */
module Exactness {
  import opened Outcomes
  import opened Text
  import opened Statuses
  import opened Records
  import opened Transactions
  import opened Handlers
  import opened Interleaving
  import opened Versions
  import opened Snapshots
  import opened Lifecycle
  import opened Validity
  import opened Reachability
  import opened Refinement
  import opened GateOutcomes
  import opened Receipts

  /** The linked row is live and has the status that was read. */
  predicate StatusKept(db: Db, linked: Found) {
    LiveAt(db, linked.key) && db.rows[linked.key].status == linked.row.status
  }

  /** The stored gate still fits a directive that starts or aborts without moving it. */
  predicate GateStillFits(db: Db, o: Op, gate: Found)
    requires o.req.Transition?
  {
    var to := Parse(TrimSpace(o.req.target));
    && LiveAt(db, gate.key) && o.read.primary.Some? && to.Some?
    && GateSettled(o.read.primary.value, to.value, db.rows[gate.key].status)
  }

  /** What the stored state must still grant to handler `o`: a deletion the status it
      read; a receipt the status of its gate; a start or abort a gate as it was or one
      that fits; a directive being edited a gate that accepts it; and a confirmation
      being edited an executing directive. */
  predicate Granted(db: Db, o: Op) {
    match o.req
    case Delete(key) => o.read.primary.Some? && StatusKept(db, Found(key, o.read.primary.value))
    case Transition(key, _, _, _) =>
      o.read.gate.Some? ==>
        StatusKept(db, o.read.gate.value) || (key.kind == OperationDirective && GateStillFits(db, o, o.read.gate.value))
    case _ =>
      match KindOf(o.req)
      case GateUnit => true
      case OperationDirective =>
        o.read.gate.Some? && LiveAt(db, o.read.gate.value.key)
            && GateAccepts(o.req.input, db.rows[o.read.gate.value.key])
      case ExecutionConfirmation =>
        o.read.directive.Some? && StatusKept(db, o.read.directive.value)
  }

  // --------------------------------------------------------------- reading once more

  /** A linked row as it is stored now; a tombstone is not found. */
  function Refreshed(db: Db, linked: Option<Found>): Option<Found> {
    if linked.None? || !LiveAt(db, linked.value.key) then None
    else Some(Found(linked.value.key, db.rows[linked.value.key]))
  }

  lemma LookupRefreshes(db: Db, linked: Found, code: string)
    requires Unique(db) && Snapshot(db, linked.key, linked.row) && linked.row.code == Canon(code)
    ensures GetByCode(db, linked.key.kind, code) == Refreshed(db, Some(linked))
  {
    if LiveAt(db, linked.key) { FindsByCode(db, linked.key, code); }
  }

  /** Reading again now finds the same own row and the linked rows as they are now. */
  lemma ReadsAgain(db: Db, o: Op, id: nat)
    requires Unique(db) && OpOk(db, o) && Addressed(o) && Effect(db, o, id).Ok? && !o.req.Delete?
    ensures var now := ReadAll(db, o.req);
            && now.primary == o.read.primary
            && now.directive == Refreshed(db, o.read.directive)
            && now.existing == o.read.existing
            && (now.directive == o.read.directive || !o.req.Transition? ==> now.gate == Refreshed(db, o.read.gate))
  {
    hide Plan, ApplyAll, Unique, Follows;
    PlanFoundItsLinks(o, id);
    var one := ReadNext(db, o.req, NOTHING_READ, 0);
    assert one.primary == o.read.primary by { OwnRowReadAgain(db, o, id); }
    var two := ReadNext(db, o.req, one, 1);
    assert two.directive == Refreshed(db, o.read.directive) by {
      assert DirectiveCode(o.req, one) == DirectiveCode(o.req, o.read);
      if o.read.directive.Some? { LookupRefreshes(db, o.read.directive.value, DirectiveCode(o.req, o.read).value); }
    }
    if o.req.Create? && o.req.kind == ExecutionConfirmation { StillNoneToCount(db, o, id); }
    if two.directive == o.read.directive || !o.req.Transition? {
      assert GateCode(o.req, two) == GateCode(o.req, o.read);
      if o.read.gate.Some? { LookupRefreshes(db, o.read.gate.value, GateCode(o.req, o.read).value); }
    }
  }

  lemma OwnRowReadAgain(db: Db, o: Op, id: nat)
    requires OpOk(db, o) && Effect(db, o, id).Ok? && !o.req.Delete?
    ensures (if o.req.Create? then None else Get(db, o.req.key)) == o.read.primary
  {
    if !o.req.Create? {
      OwnBlockFirst(o.req, o.caller, id, o.read);
      SaveOverwritesItsSource(db, o, id, 0);
    }
  }

  lemma StillNoneToCount(db: Db, o: Op, id: nat)
    requires o.req.Create? && o.req.kind == ExecutionConfirmation && InFlight(db, o) && Coupled(o.req, o.read)
    requires Effect(db, o, id).Ok?
    ensures o.read.directive.Some? && o.read.directive.value.key in db.rows
    ensures LiveConfirmations(db, db.rows[o.read.directive.value.key].code) == {}
  {
    InsertIsNew(db, o, id);
    var b := Plan(o.req, o.caller, id, o.read).value[0];
    var code := o.read.directive.value.row.code;
    assert b.write.row.business.relatedCode == code == Canon(code);
    assert ApplyBlock(db, b).Ok?;
    assert !LinkTaken(db.rows, code);
  }

  // ------------------------------------------------------------ plans on other reads

  /** The plan of an edited directive depends on its gate only for being accepted. */
  lemma DirectiveEditPlan(req: Request, caller: Caller, id: nat, read: Reads, now: Reads)
    requires (req.Create? || req.Update?) && KindOf(req) == OperationDirective
    requires Plan(req, caller, id, read).Ok? && now.primary == read.primary
    ensures Plan(req, caller, id, now).Ok? <==> now.gate.Some? && GateAccepts(req.input, now.gate.value.row)
    ensures Plan(req, caller, id, now).Ok? ==> Plan(req, caller, id, now) == Plan(req, caller, id, read)
  {
    hide ValidFields, Tidy, Canon, TrimSpace, EqualFold;
  }

  /** The plan of an edited confirmation depends on its directive's status and the
      columns it copies. */
  lemma ReceiptEditPlan(req: Request, caller: Caller, id: nat, read: Reads, now: Reads)
    requires (req.Create? || req.Update?) && KindOf(req) == ExecutionConfirmation
    requires Plan(req, caller, id, read).Ok? && now.primary == read.primary && now.existing == read.existing
    requires now.directive.Some? && read.directive.Some? ==>
      now.directive.value.row.code == read.directive.value.row.code
      && (read.directive.value.row.status == Executing ==>
          now.directive.value.row.business == read.directive.value.row.business)
    ensures read.directive.Some? && read.directive.value.row.status == Executing
    ensures Plan(req, caller, id, now).Ok? <==> now.directive.Some? && now.directive.value.row.status == Executing
    ensures Plan(req, caller, id, now).Ok? ==> Plan(req, caller, id, now) == Plan(req, caller, id, read)
  {
    hide ValidFields, Tidy, Canon, TrimSpace, EqualFold;
  }

  predicate GateWritten(req: Request, caller: Caller, id: nat, read: Reads) {
    var plan := Plan(req, caller, id, read);
    plan.Ok? && read.gate.Some? && WritesKey(plan.value, read.gate.value.key)
  }

  /** Reading `now` instead of `read` gives the same plan if `same`, and otherwise a
      longer plan or none. */
  predicate Replanned(req: Request, caller: Caller, id: nat, read: Reads, now: Reads, same: bool)
    requires Plan(req, caller, id, read).Ok?
  {
    var plan := Plan(req, caller, id, now);
    if same then plan == Plan(req, caller, id, read)
    else plan.Ok? ==> |plan.value| > |Plan(req, caller, id, read).value|
  }

  lemma NoMoveIff(directive: Row, to: Status, gate: Row)
    requires to == Executing || to == Aborted
    ensures GateMove(directive, to, gate) == Ok(None) <==> GateSettled(directive, to, gate.status)
  {
  }

  lemma UnwrittenMeansNoMove(req: Request, caller: Caller, id: nat, read: Reads, to: Status)
    requires req.Transition? && req.key.kind == OperationDirective && Plan(req, caller, id, read).Ok?
    requires Parse(TrimSpace(req.target)) == Some(to) && NeedsGate(read.primary.value.status, to)
    ensures read.gate.Some? && (!GateWritten(req, caller, id, read) ==>
        GateMove(read.primary.value, to, read.gate.value.row) == Ok(None))
  {
    hide TrimSpace, GateMove, DirectiveBlock;
    DirectivePlanMovesGate(req, caller, read.primary.value, read, to);
    var blocks := Plan(req, caller, id, read).value;
    if |blocks| == 2 { assert blocks[1].key == read.gate.value.key; }
  }

  lemma DirectivePlanByGate(req: Request, caller: Caller, id: nat, read: Reads, now: Reads, to: Status)
    requires req.Transition? && req.key.kind == OperationDirective && Plan(req, caller, id, read).Ok?
    requires Parse(TrimSpace(req.target)) == Some(to) && NeedsGate(read.primary.value.status, to)
    requires !GateWritten(req, caller, id, read) && now.primary == read.primary
    ensures Replanned(req, caller, id, read, now,
                      now.gate.Some? && GateSettled(read.primary.value, to, now.gate.value.row.status))
  {
    hide TrimSpace, EqualFold, CanTransition, GateMove, DirectiveBlock, LinkedBlock, DirectiveRoleAllowed, GateSettled;
    var current := read.primary.value;
    UnwrittenMeansNoMove(req, caller, id, read, to);
    DirectivePlanMovesGate(req, caller, current, read, to);
    if now.gate.Some? { NoMoveIff(current, to, now.gate.value.row); }
    if Plan(req, caller, id, now).Ok? { DirectivePlanMovesGate(req, caller, current, now, to); }
  }

  lemma UnwrittenReceiptIsShort(req: Request, caller: Caller, id: nat, read: Reads, to: Status)
    requires req.Transition? && req.key.kind == ExecutionConfirmation && Plan(req, caller, id, read).Ok?
    requires Parse(TrimSpace(req.target)) == Some(to) && read.primary.value.status == Pending
    ensures read.gate.Some? && (!GateWritten(req, caller, id, read) ==> |Plan(req, caller, id, read).value| == 2)
  {
    hide TrimSpace, ConfirmationBlock, Parse;
    ReceiptPlan(req, caller, read.primary.value, read, to);
    var blocks := Plan(req, caller, id, read).value;
    if |blocks| == 3 { assert blocks[2].key == read.gate.value.key; }
  }

  lemma ReceiptPlanByGate(req: Request, caller: Caller, id: nat, read: Reads, now: Reads, to: Status)
    requires req.Transition? && req.key.kind == ExecutionConfirmation && Plan(req, caller, id, read).Ok?
    requires Parse(TrimSpace(req.target)) == Some(to) && read.primary.value.status == Pending
    requires !GateWritten(req, caller, id, read) && now.primary == read.primary && now.directive == read.directive
    ensures read.gate.Some?
    ensures Replanned(req, caller, id, read, now, now.gate.Some?
        && now.gate.value.row.status == read.gate.value.row.status)
  {
    hide TrimSpace, ConfirmationBlock, LinkedBlock, Parse;
    UnwrittenReceiptIsShort(req, caller, id, read, to);
    ReceiptPlan(req, caller, read.primary.value, read, to);
    if Plan(req, caller, id, now).Ok? { ReceiptPlan(req, caller, read.primary.value, now, to); }
  }

  // ------------------------------------------------------------------- comparing effects

  /** Plans of different length leave logs of different length. */
  lemma LongerPlanDiffers(db: Db, a: seq<Block>, b: seq<Block>)
    requires ApplyAll(db, a).Ok? && |b| > |a|
    ensures ApplyAll(db, a) != ApplyAll(db, b)
  {
    TransactionLogs(db, a);
    if ApplyAll(db, b).Ok? {
      TransactionLogs(db, b);
      assert |ApplyAll(db, b).value.audits| == |db.audits| + |b|;
    }
  }

  lemma DeletionIsAtomicIff(db: Db, o: Op, id: nat)
    requires o.req.Delete? && Effect(db, o, id).Ok?
    ensures Effect(db, o, id) == Atomic(db, o.req, o.caller, id) <==> Granted(db, o)
  {
    DeletionOutcome(db, o, id);
    DeleteCommitsIffLive(db, o, id);
  }

  lemma DirectiveEditIsAtomicIff(db: Db, o: Op, id: nat)
    requires Unique(db) && OpOk(db, o) && Addressed(o) && Effect(db, o, id).Ok?
    requires (o.req.Create? || o.req.Update?) && KindOf(o.req) == OperationDirective
    ensures Effect(db, o, id) == Atomic(db, o.req, o.caller, id) <==> Granted(db, o)
  {
    hide Plan, ReadAll, ApplyAll, GateAccepts, Unique, OpOk;
    ReadsAgain(db, o, id);
    DirectiveEditPlan(o.req, o.caller, id, o.read, o.read);
    DirectiveEditPlan(o.req, o.caller, id, o.read, ReadAll(db, o.req));
  }

  lemma ReceiptEditIsAtomicIff(db: Db, o: Op, id: nat)
    requires Unique(db) && OpOk(db, o) && Addressed(o) && Effect(db, o, id).Ok?
    requires (o.req.Create? || o.req.Update?) && KindOf(o.req) == ExecutionConfirmation
    ensures Effect(db, o, id) == Atomic(db, o.req, o.caller, id) <==> Granted(db, o)
  {
    ReceiptEditPlan(o.req, o.caller, id, o.read, o.read);
    hide Plan, ReadAll, ApplyAll, Unique, OpOk;
    ReadsAgain(db, o, id);
    CopiedColumnsKept(db, o);
    ReceiptEditPlan(o.req, o.caller, id, o.read, ReadAll(db, o.req));
  }

  /** Who reads a gate: starts, aborts and receipts. */
  lemma GateReaders(o: Op, id: nat)
    requires o.req.Transition? && Plan(o.req, o.caller, id, o.read).Ok? && Addressed(o) && o.read.gate.Some?
    ensures o.read.primary.Some? && Parse(TrimSpace(o.req.target)).Some?
    ensures || (o.req.key.kind == OperationDirective
        && NeedsGate(o.read.primary.value.status, Parse(TrimSpace(o.req.target)).value))
            || (o.req.key.kind == ExecutionConfirmation && o.read.directive.Some?)
  {
  }

  /** A directive a pending receipt has read is written, so it is still what was read. */
  lemma ReceiptDirectiveKept(db: Db, o: Op, id: nat)
    requires OpOk(db, o) && Addressed(o) && Effect(db, o, id).Ok?
    requires o.req.Transition? && o.read.directive.Some?
    ensures Refreshed(db, o.read.directive) == o.read.directive
    ensures o.read.primary.Some? && o.read.primary.value.status == Pending && o.req.key.kind == ExecutionConfirmation
  {
    hide Follows, ApplyAll;
    OwnBlockFirst(o.req, o.caller, id, o.read);
    ConfirmationPlanShape(o.req, o.caller, o.read.primary.value, o.read);
    SaveOverwritesItsSource(db, o, id, 1);
  }

  /** A gate the commit writes is still what was read. */
  lemma WrittenGateKept(db: Db, o: Op, id: nat)
    requires OpOk(db, o) && Addressed(o) && Effect(db, o, id).Ok? && o.req.Transition?
        && GateWritten(o.req, o.caller, id, o.read)
    ensures Refreshed(db, o.read.gate) == o.read.gate
  {
    hide Follows, ApplyAll;
    var blocks := Plan(o.req, o.caller, id, o.read).value;
    var i :| 0 <= i < |blocks| && blocks[i].key == o.read.gate.value.key;
    VersionedPlanSaves(o.req, o.caller, id, o.read, i);
    SaveOverwritesItsSource(db, o, id, i);
  }

  /** A transition of an unmoved gate reads again. */
  lemma UnwrittenGateDecides(db: Db, o: Op, id: nat, now: Reads)
    requires OpOk(db, o) && Addressed(o) && Effect(db, o, id).Ok? && o.req.Transition?
    requires o.read.gate.Some? && !GateWritten(o.req, o.caller, id, o.read)
    requires now == o.read.(gate := Refreshed(db, o.read.gate))
    ensures Replanned(o.req, o.caller, id, o.read, now, Granted(db, o))
  {
    GateReaders(o, id);
    var to := Parse(TrimSpace(o.req.target)).value;
    if o.req.key.kind == OperationDirective {
      UnwrittenMeansNoMove(o.req, o.caller, id, o.read, to);
      NoMoveIff(o.read.primary.value, to, o.read.gate.value.row);
      DirectivePlanByGate(o.req, o.caller, id, o.read, now, to);
    } else {
      ReceiptDirectiveKept(db, o, id);
      ReceiptPlanByGate(o.req, o.caller, id, o.read, now, to);
    }
  }

  lemma TransitionIsAtomicIff(db: Db, o: Op, id: nat)
    requires Unique(db) && OpOk(db, o) && Addressed(o) && Effect(db, o, id).Ok? && o.req.Transition?
    ensures Effect(db, o, id) == Atomic(db, o.req, o.caller, id) <==> Granted(db, o)
  {
    hide Plan, ReadAll, ApplyAll, Unique, OpOk, Addressed;
    var now := ReadAll(db, o.req);
    ReadsAgain(db, o, id);
    if o.read.directive.Some? { ReceiptDirectiveKept(db, o, id); }
    if o.read.gate.Some? {
      if GateWritten(o.req, o.caller, id, o.read) {
        WrittenGateKept(db, o, id);
      } else {
        UnwrittenGateDecides(db, o, id, now);
        if !Granted(db, o) && Plan(o.req, o.caller, id, now).Ok? {
          LongerPlanDiffers(db, Plan(o.req, o.caller, id, o.read).value, Plan(o.req, o.caller, id, now).value);
        }
      }
    }
  }

  lemma GateEditIsAtomic(db: Db, o: Op, id: nat)
    requires Unique(db) && OpOk(db, o) && Addressed(o) && Effect(db, o, id).Ok?
    requires (o.req.Create? || o.req.Update?) && KindOf(o.req) == GateUnit
    ensures Effect(db, o, id) == Atomic(db, o.req, o.caller, id)
  {
    hide Plan, ApplyAll, Unique;
    ReadsAgain(db, o, id);
  }

  /** Exactly when a commit is the one-step handler on the stored state, for every
      handler: if and only if the stored state still grants what the handler needs of
      the rows it does not write. */
  lemma CommitIsAtomicIff(db: Db, o: Op, id: nat)
    requires Unique(db) && OpOk(db, o) && Addressed(o) && Effect(db, o, id).Ok?
    ensures Effect(db, o, id) == Atomic(db, o.req, o.caller, id) <==> Granted(db, o)
  {
    match o.req
    case Delete(_) => DeletionIsAtomicIff(db, o, id);
    case Transition(_, _, _, _) => TransitionIsAtomicIff(db, o, id);
    case _ =>
      match KindOf(o.req)
      case GateUnit => GateEditIsAtomic(db, o, id);
      case OperationDirective => DirectiveEditIsAtomicIff(db, o, id);
      case ExecutionConfirmation => ReceiptEditIsAtomicIff(db, o, id);
  }

  /** The same for every successful commit of an honest run. */
  lemma RunCommitIsAtomicIff(w: World, events: seq<Event>, i: nat)
    requires Sound(w) && AllAddressed(w) && HonestRun(w, events) && i < |events|
    requires Succeeds(Run(w, events[..i]), events[i])
    ensures var before := Run(w, events[..i]);
            var o := before.ops[events[i].op];
            Atomic(before.db, o.req, o.caller, events[i].id) == Ok(Run(w, events[..i + 1]).db) <==>
            Granted(before.db, o)
  {
    hide Granted, Plan, ApplyAll;
    RunSegment(w, events, i, i + 1);
    RunAddressed(w, events[..i]);
    RunPrefix(w, events, i);
    var now := Run(w, events[..i]);
    CommitIsAtomicIff(now.db, now.ops[events[i].op], events[i].id);
  }
}
