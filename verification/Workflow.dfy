/** The whole dispatch workflow, one handler after the other, from any valid state. */
module Workflow {
  import opened Outcomes
  import opened Text
  import opened Statuses
  import opened Records
  import opened Transactions
  import opened Handlers
  import opened Interleaving
  import opened Versions
  import opened Lifecycle
  import opened Validity
  import opened Agreement
  import opened Reachability
  import opened GateOutcomes

  /** A handler that reads everything at once has read consistently. */
  lemma ReadAllOk(db: Db, req: Request, caller: Caller)
    requires AllShaped(db) && Honest(db, req)
    ensures OpOk(db, Op(req, caller, ReadAll(db, req), STAGES))
  {
    var zero := Op(req, caller, NOTHING_READ, 0);
    ReadKeepsOpOk(db, zero);
    var one := zero.(read := ReadNext(db, zero.req, zero.read, zero.stage), stage := zero.stage + 1);
    ReadKeepsOpOk(db, one);
    var two := one.(read := ReadNext(db, one.req, one.read, one.stage), stage := one.stage + 1);
    ReadKeepsOpOk(db, two);
  }

  /** One handler running alone keeps every invariant. */
  lemma AtomicKeeps(db: Db, req: Request, caller: Caller, id: nat)
    requires Valid(db) && Honest(db, req) && Atomic(db, req, caller, id).Ok?
    ensures Valid(Atomic(db, req, caller, id).value) && Evolves(db, Atomic(db, req, caller, id).value)
  {
    var o := Op(req, caller, ReadAll(db, req), STAGES);
    ReadAllOk(db, req, caller);
    assert Effect(db, o, id) == Atomic(db, req, caller, id);
    CommitKeeps(db, o, id);
  }

  lemma TrimName(s: Status)
    ensures Parse(TrimSpace(Name(s))) == Some(s)
  {
    TrimmedIsFixed(Name(s));
    ParseName(s);
  }

  // ----------------------------------------------------------------- single steps

  function Move(key: Key, db: Db, to: Status, reason: string): Request
    requires key in db.rows
  {
    Transition(key, db.rows[key].version, Name(to), reason)
  }

  /** Who may make a directive transition, under the two-person rule. */
  predicate MayMove(directive: Row, to: Status, caller: Caller) {
    match to
    case Pending => caller.role in {Operator, Admin}
    case Approved =>
      caller.role in {Reviewer, Admin} && directive.submittedBy != "" && !EqualFold(directive.submittedBy, caller.actor)
    case Executing => caller.role in {Operator, Admin}
    case Aborted => caller.role in {Operator, Reviewer, Admin}
    case _ => false
  }

  /** The content a directive transition stores. */
  function Moved(directive: Row, to: Status, caller: Caller): Row {
    directive.(
      status := to,
      submittedBy := if to == Pending then caller.actor else directive.submittedBy,
      approvedBy := if to == Approved then caller.actor else directive.approvedBy,
      version := directive.version + 1)
  }

  lemma OwnBlockFits(db: Db, d: Key, to: Status, caller: Caller, reason: string)
    requires AllShaped(db) && LiveAt(db, d) && d.kind == OperationDirective
    requires CanTransition(DIRECTIVE_TRANSITIONS, db.rows[d].status, to) && to != Completed
    requires MayMove(db.rows[d], to, caller)
    ensures Fits(db, DirectiveBlock(Move(d, db, to, reason), caller, db.rows[d], to))
  {
    hide EqualFold, TrimSpace, Canon;
    OwnDirectiveBlockLegal(Move(d, db, to, reason), caller, db.rows[d], to);
  }

  lemma OwnBlockStored(db: Db, d: Key, to: Status, caller: Caller, reason: string)
    requires LiveAt(db, d) && d.kind == OperationDirective
    requires var b := DirectiveBlock(Move(d, db, to, reason), caller, db.rows[d], to);
             b.approval.Some? ==> !StageTaken(db.approvals, b.approval.value)
    ensures var b := DirectiveBlock(Move(d, db, to, reason), caller, db.rows[d], to);
            && ApplyBlock(db, b).Ok?
            && ApplyBlock(db, b).value.rows == db.rows[d := Moved(db.rows[d], to, caller)]
            && ApplyBlock(db, b).value.audits == db.audits + [b.audit]
  {
    assert db.rows[d].(deleted := false) == db.rows[d];
  }

  lemma OwnBlockApplies(db: Db, d: Key, to: Status, caller: Caller, reason: string)
    requires AllShaped(db) && Ledgers(db) && LiveAt(db, d) && d.kind == OperationDirective
    requires CanTransition(DIRECTIVE_TRANSITIONS, db.rows[d].status, to) && to != Completed
    requires MayMove(db.rows[d], to, caller)
    ensures var b := DirectiveBlock(Move(d, db, to, reason), caller, db.rows[d], to);
            && b.audit.key == d
            && ApplyBlock(db, b).Ok?
            && ApplyBlock(db, b).value.rows == db.rows[d := Moved(db.rows[d], to, caller)]
            && ApplyBlock(db, b).value.audits == db.audits + [b.audit]
  {
    var b := DirectiveBlock(Move(d, db, to, reason), caller, db.rows[d], to);
    OwnBlockFits(db, d, to, caller, reason);
    if b.approval.Some? { StageNeverTaken(db, b); }
    OwnBlockStored(db, d, to, caller, reason);
  }

  lemma AtomicIs(db: Db, req: Request, caller: Caller, id: nat, blocks: seq<Block>)
    requires Plan(req, caller, id, ReadAll(db, req)) == Ok(blocks)
    ensures Atomic(db, req, caller, id) == ApplyAll(db, blocks)
  {
  }

  lemma AtomicIsBlock(db: Db, req: Request, caller: Caller, id: nat, b: Block)
    requires Plan(req, caller, id, ReadAll(db, req)) == Ok([b])
    ensures Atomic(db, req, caller, id) == ApplyBlock(db, b)
  {
    AtomicIs(db, req, caller, id, [b]);
    assert [b][1..] == [];
  }

  /** Submitting and approving are planned as one block. */
  lemma QuietPlan(db: Db, d: Key, to: Status, caller: Caller, id: nat, reason: string)
    requires LiveAt(db, d) && d.kind == OperationDirective
    requires CanTransition(DIRECTIVE_TRANSITIONS, db.rows[d].status, to) && to != Completed
    requires MayMove(db.rows[d], to, caller) && !NeedsGate(db.rows[d].status, to)
    ensures var req := Move(d, db, to, reason);
            Plan(req, caller, id, ReadAll(db, req)) == Ok([DirectiveBlock(req, caller, db.rows[d], to)])
  {
    TrimName(to);
  }

  /** Submitting and approving touch only the directive. */
  lemma MoveWithoutGate(db: Db, d: Key, to: Status, caller: Caller, id: nat, reason: string)
    requires AllShaped(db) && Ledgers(db) && LiveAt(db, d) && d.kind == OperationDirective
    requires CanTransition(DIRECTIVE_TRANSITIONS, db.rows[d].status, to) && to != Completed
    requires MayMove(db.rows[d], to, caller) && !NeedsGate(db.rows[d].status, to)
    ensures var r := Atomic(db, Move(d, db, to, reason), caller, id);
            && r.Ok?
            && r.value.rows == db.rows[d := Moved(db.rows[d], to, caller)]
            && forall k :: k != d ==> Entries(r.value.audits, k) == Entries(db.audits, k)
  {
    var req := Move(d, db, to, reason);
    var b := DirectiveBlock(req, caller, db.rows[d], to);
    QuietPlan(db, d, to, caller, id, reason);
    AtomicIsBlock(db, req, caller, id, b);
    OwnBlockApplies(db, d, to, caller, reason);
    forall k | k != d ensures Entries(db.audits + [b.audit], k) == Entries(db.audits, k) {
      CountsPush(db.audits, b.audit, k);
    }
  }

  /** The gate's content after an execution has started. */
  function Started(gate: Row, target: Status): Row {
    if gate.status == target || gate.status == Moving then gate
    else gate.(status := Moving, version := gate.version + 1)
  }

  lemma ApplyPair(db: Db, a: Block, b: Block)
    requires ApplyBlock(db, a).Ok?
    ensures ApplyAll(db, [a, b]) == ApplyBlock(ApplyBlock(db, a).value, b)
  {
    assert [a, b][1..] == [b];
    assert ApplyAll(ApplyBlock(db, a).value, [b]) == ApplyBlock(ApplyBlock(db, a).value, b);
  }

  lemma GateFound(db: Db, d: Key, g: Key)
    requires Unique(db) && d in db.rows && g.kind == GateUnit
        && HasCode(db, g, GateUnit, db.rows[d].business.relatedCode)
    ensures GetByCode(db, GateUnit, db.rows[d].business.relatedCode) == Some(Found(g, db.rows[g]))
  {
  }

  lemma ExecuteCases(req: Request, caller: Caller, current: Row, read: Reads)
    requires req.Transition? && Parse(TrimSpace(req.target)) == Some(Executing) && current.status == Approved
    requires DirectiveRoleAllowed(Executing, caller.role) && read.gate.Some? && read.gate.value.row.status != Locked
    requires StatusOf(GateUnit, read.gate.value.row.status)
    ensures var b := DirectiveBlock(req, caller, current, Executing);
            var gate := read.gate.value;
            PlanDirectiveTransition(req, caller, current, read) ==
            Ok(if gate.row.status == current.gateState || gate.row.status == Moving then [b]
               else [b, LinkedBlock(gate, Moving, "directive_execution", caller, req.reason)])
  {
    GateEdges(read.gate.value.row.status, Moving);
  }

  /** The directive is approved, and its gate is live and not locked. */
  predicate Executable(db: Db, d: Key, g: Key, caller: Caller) {
    && LiveAt(db, d) && d.kind == OperationDirective && db.rows[d].status == Approved
    && g.kind == GateUnit && HasCode(db, g, GateUnit, db.rows[d].business.relatedCode) && db.rows[g].status != Locked
    && caller.role in {Operator, Admin}
  }

  /** Executing is never refused when the gate is live and not locked. */
  lemma ExecutePlan(db: Db, d: Key, g: Key, caller: Caller, id: nat, reason: string)
    requires AllShaped(db) && Unique(db) && Executable(db, d, g, caller)
    ensures var req := Move(d, db, Executing, reason);
            var b := DirectiveBlock(req, caller, db.rows[d], Executing);
            Plan(req, caller, id, ReadAll(db, req)) ==
            Ok(if db.rows[g].status == db.rows[d].gateState || db.rows[g].status == Moving then [b]
               else [b, LinkedBlock(Found(g, db.rows[g]), Moving, "directive_execution", caller, reason)])
  {
    hide TrimSpace;
    var req := Move(d, db, Executing, reason);
    TrimName(Executing);
    GateFound(db, d, g);
    assert ReadAll(db, req).gate == Some(Found(g, db.rows[g]));
    ExecuteCases(req, caller, db.rows[d], ReadAll(db, req));
  }

  /** A block for row `d` followed by a linked move of gate `g`. */
  lemma BothApply(db: Db, d: Key, b: Block, row: Row, g: Key, gb: Block, gate: Row, r: Result<Db>)
    requires d != g && LiveAt(db, g) && g.kind == GateUnit && b.audit.key == d
    requires ApplyBlock(db, b).Ok? && ApplyBlock(db, b).value.rows == db.rows[d := row]
    requires ApplyBlock(db, b).value.audits == db.audits + [b.audit]
    requires gb.key == gb.audit.key == g && gb.write == Save(db.rows[g].version, gate) && gb.approval.None?
    requires gate.code == db.rows[g].code && !gate.deleted
    requires r == ApplyAll(db, [b, gb])
    ensures r.Ok?
    ensures r.value.rows == db.rows[d := row][g := gate]
    ensures Entries(r.value.audits, g) == Entries(db.audits, g) + 1
  {
    var mid := ApplyBlock(db, b).value;
    assert mid.rows[g] == db.rows[g];
    assert gate.(code := db.rows[g].code, deleted := false) == gate;
    ApplyPair(db, b, gb);
    CountsPush(db.audits, b.audit, g);
    CountsPush(mid.audits, gb.audit, g);
  }

  /** What executing stores: the directive, and the gate if it has to start moving. */
  ghost predicate Executed(db: Db, d: Key, g: Key, caller: Caller, r: Result<Db>)
    requires d in db.rows && g in db.rows
  {
    var gate := Started(db.rows[g], db.rows[d].gateState);
    && r.Ok?
    && r.value.rows == db.rows[d := Moved(db.rows[d], Executing, caller)][g := gate]
    && Entries(r.value.audits, g) == Entries(db.audits, g) + if gate == db.rows[g] then 0 else 1
  }

  lemma ExecuteQuietly(db: Db, d: Key, g: Key, caller: Caller, reason: string)
    requires AllShaped(db) && Ledgers(db) && Executable(db, d, g, caller)
    requires db.rows[g].status == db.rows[d].gateState || db.rows[g].status == Moving
    ensures Executed(db, d, g, caller, ApplyBlock(db, DirectiveBlock(Move(d, db, Executing, reason), caller,
        db.rows[d], Executing)))
  {
    var b := DirectiveBlock(Move(d, db, Executing, reason), caller, db.rows[d], Executing);
    OwnBlockApplies(db, d, Executing, caller, reason);
    CountsPush(db.audits, b.audit, g);
    UpdateSame(db.rows[d := Moved(db.rows[d], Executing, caller)], g);
  }

  lemma StartedMoves(gate: Row, target: Status)
    requires gate.status != target && gate.status != Moving
    ensures Started(gate, target) == gate.(status := Moving, version := gate.version + 1)
        && Started(gate, target) != gate
  {
  }

  lemma ExecuteAndMove(db: Db, d: Key, g: Key, caller: Caller, reason: string, b: Block, gb: Block, r: Result<Db>)
    requires AllShaped(db) && Ledgers(db) && Executable(db, d, g, caller)
    requires db.rows[g].status != db.rows[d].gateState && db.rows[g].status != Moving
    requires b == DirectiveBlock(Move(d, db, Executing, reason), caller, db.rows[d], Executing)
    requires gb == LinkedBlock(Found(g, db.rows[g]), Moving, "directive_execution", caller, reason)
    requires r == ApplyAll(db, [b, gb])
    ensures Executed(db, d, g, caller, r)
  {
    hide ApplyAll, ApplyBlock, AllShaped, Ledgers, DirectiveBlock;
    var gate := Started(db.rows[g], db.rows[d].gateState);
    StartedMoves(db.rows[g], db.rows[d].gateState);
    OwnBlockApplies(db, d, Executing, caller, reason);
    BothApply(db, d, b, Moved(db.rows[d], Executing, caller), g, gb, gate, r);
  }

  lemma UpdateSame(rows: map<Key, Row>, k: Key)
    requires k in rows
    ensures rows[k := rows[k]] == rows
  {
  }

  lemma ExecuteStep(db: Db, d: Key, g: Key, caller: Caller, id: nat, reason: string)
    requires AllShaped(db) && Unique(db) && Ledgers(db) && Executable(db, d, g, caller)
    ensures Executed(db, d, g, caller, Atomic(db, Move(d, db, Executing, reason), caller, id))
  {
    var req := Move(d, db, Executing, reason);
    var b := DirectiveBlock(req, caller, db.rows[d], Executing);
    var gb := LinkedBlock(Found(g, db.rows[g]), Moving, "directive_execution", caller, reason);
    ExecutePlan(db, d, g, caller, id, reason);
    if db.rows[g].status == db.rows[d].gateState || db.rows[g].status == Moving {
      AtomicIsBlock(db, req, caller, id, b);
      ExecuteQuietly(db, d, g, caller, reason);
    } else {
      AtomicIs(db, req, caller, id, [b, gb]);
      ExecuteAndMove(db, d, g, caller, reason, b, gb, ApplyAll(db, [b, gb]));
    }
  }

  /** A start leaves the gate moving, but for a gate that already stands at a target
      other than moving. */
  lemma StartMovesIff(db: Db, d: Key, g: Key, caller: Caller, id: nat, reason: string)
    requires AllShaped(db) && Unique(db) && Ledgers(db) && Executable(db, d, g, caller)
    ensures var r := Atomic(db, Move(d, db, Executing, reason), caller, id);
            && r.Ok? && g in r.value.rows
            && (r.value.rows[g].status == Moving <==>
                db.rows[g].status != db.rows[d].gateState || db.rows[d].gateState == Moving)
  {
    hide Atomic;
    ExecuteStep(db, d, g, caller, id, reason);
  }

  // ---------------------------------------------------------------------- aborting

  /** The directive is executing and its gate is live, in whatever state. */
  predicate Abortable(db: Db, d: Key, g: Key, caller: Caller) {
    && LiveAt(db, d) && d.kind == OperationDirective && db.rows[d].status == Executing
    && g.kind == GateUnit && HasCode(db, g, GateUnit, db.rows[d].business.relatedCode)
    && caller.role in {Operator, Reviewer, Admin}
  }

  lemma AbortCases(req: Request, caller: Caller, current: Row, read: Reads)
    requires req.Transition? && Parse(TrimSpace(req.target)) == Some(Aborted) && current.status == Executing
    requires DirectiveRoleAllowed(Aborted, caller.role) && read.gate.Some?
        && StatusOf(GateUnit, read.gate.value.row.status)
    ensures var b := DirectiveBlock(req, caller, current, Aborted);
            var gate := read.gate.value;
            PlanDirectiveTransition(req, caller, current, read) ==
            Ok(if gate.row.status == Locked then [b] else [b, LinkedBlock(gate, Locked, "directive_execution",
                caller, req.reason)])
  {
    GateEdges(read.gate.value.row.status, Locked);
  }

  lemma AbortPlan(db: Db, d: Key, g: Key, caller: Caller, id: nat, reason: string)
    requires AllShaped(db) && Unique(db) && Abortable(db, d, g, caller)
    ensures var req := Move(d, db, Aborted, reason);
            var b := DirectiveBlock(req, caller, db.rows[d], Aborted);
            Plan(req, caller, id, ReadAll(db, req)) ==
            Ok(if db.rows[g].status == Locked then [b]
               else [b, LinkedBlock(Found(g, db.rows[g]), Locked, "directive_execution", caller, reason)])
  {
    hide TrimSpace;
    var req := Move(d, db, Aborted, reason);
    TrimName(Aborted);
    GateFound(db, d, g);
    assert ReadAll(db, req).gate == Some(Found(g, db.rows[g]));
    AbortCases(req, caller, db.rows[d], ReadAll(db, req));
  }

  /** The gate's content after an execution has been aborted. */
  function LockedGate(gate: Row): Row {
    if gate.status == Locked then gate else gate.(status := Locked, version := gate.version + 1)
  }

  /** An executing directive whose gate is live can always be aborted, whatever the
      gate's state; this locks the gate. */
  lemma AbortStep(db: Db, d: Key, g: Key, caller: Caller, id: nat, reason: string)
    requires AllShaped(db) && Unique(db) && Ledgers(db) && Abortable(db, d, g, caller)
    ensures var r := Atomic(db, Move(d, db, Aborted, reason), caller, id);
            r.Ok? && r.value.rows == db.rows[d := Moved(db.rows[d], Aborted, caller)][g := LockedGate(db.rows[g])]
  {
    hide Plan, ReadAll, AllShaped, Unique, Ledgers, DirectiveBlock, ApplyBlock, ApplyAll;
    var req := Move(d, db, Aborted, reason);
    var b := DirectiveBlock(req, caller, db.rows[d], Aborted);
    AbortPlan(db, d, g, caller, id, reason);
    OwnBlockApplies(db, d, Aborted, caller, reason);
    if db.rows[g].status == Locked {
      AtomicIsBlock(db, req, caller, id, b);
      UpdateSame(db.rows[d := Moved(db.rows[d], Aborted, caller)], g);
    } else {
      var gb := LinkedBlock(Found(g, db.rows[g]), Locked, "directive_execution", caller, reason);
      AtomicIs(db, req, caller, id, [b, gb]);
      BothApply(db, d, b, Moved(db.rows[d], Aborted, caller), g, gb, LockedGate(db.rows[g]), ApplyAll(db, [b, gb]));
    }
  }

  lemma AbortEdges(from: Status)
    ensures CanTransition(DIRECTIVE_TRANSITIONS, from, Aborted) <==> from in {Pending, Approved, Executing}
  {
  }

  lemma AbortRefused(db: Db, d: Key, caller: Caller, id: nat, reason: string)
    requires LiveAt(db, d) && d.kind == OperationDirective
    ensures var status := db.rows[d].status;
            var r := Atomic(db, Move(d, db, Aborted, reason), caller, id);
            && (status !in {Pending, Approved, Executing} ==> r == Err(InvalidTransition))
            && (status in {Pending, Approved, Executing} && caller.role !in {Operator, Reviewer, Admin} ==>
                r == Err(Forbidden))
            && (status == Executing && GateOf(db, db.rows[d]).None? ==> r.Err?)
  {
    TrimName(Aborted);
    AbortEdges(db.rows[d].status);
  }

  /** Exactly when a directive can be aborted: never as a draft or once it has ended,
      and while it executes only with a live gate. */
  lemma AbortsIff(db: Db, d: Key, caller: Caller, id: nat, reason: string)
    requires Valid(db) && LiveAt(db, d) && d.kind == OperationDirective
    ensures var status := db.rows[d].status;
            var r := Atomic(db, Move(d, db, Aborted, reason), caller, id);
            && (r.Ok? <==> caller.role in {Operator, Reviewer, Admin}
                           && (status in {Pending, Approved} || (status == Executing && GateOf(db, db.rows[d]).Some?)))
            && (status in {Draft, Completed, Aborted} ==> r == Err(InvalidTransition))
  {
    hide Plan, ReadAll, ApplyAll, AllShaped, Unique, Ledgers, Agreeing, CanTransition;
    AbortRefused(db, d, caller, id, reason);
    AbortEdges(db.rows[d].status);
    if caller.role in {Operator, Reviewer, Admin} {
      if db.rows[d].status in {Pending, Approved} {
        MoveWithoutGate(db, d, Aborted, caller, id, reason);
      } else if db.rows[d].status == Executing && GateOf(db, db.rows[d]).Some? {
        AbortStep(db, d, GateOf(db, db.rows[d]).value.key, caller, id, reason);
      }
    }
  }

  // ----------------------------------------------------------------- the confirmation

  /** A confirmation of directive `d` can be created under key `c`. */
  predicate Creatable(db: Db, d: Key, c: Key, code: string, input: Business) {
    && c.kind == ExecutionConfirmation && c !in db.rows
    && d in db.rows && ValidFields(code, input) && Canon(input.relatedCode) == db.rows[d].code
    && !CodeTaken(db.rows, ExecutionConfirmation, Canon(code))
    && !LinkTaken(db.rows, db.rows[d].code)
  }

  function Receipt(directive: Row, code: string, input: Business): Row {
    NewRow(ExecutionConfirmation, code, CopyFrom(directive, input), Closed)
  }

  lemma CreateStep(db: Db, d: Key, c: Key, caller: Caller, code: string, input: Business)
    requires Valid(db) && LiveAt(db, d) && d.kind == OperationDirective && db.rows[d].status == Executing
    requires Creatable(db, d, c, code, input)
    ensures var r := Atomic(db, Create(ExecutionConfirmation, code, input, None, None), caller, c.id);
            && r.Ok?
            && r.value.rows == db.rows[c := Receipt(db.rows[d], code, input)]
            && forall k :: k != c ==> Entries(r.value.audits, k) == Entries(db.audits, k)
  {
    var req := Create(ExecutionConfirmation, code, input, None, None);
    var read := ReadAll(db, req);
    assert HasCode(db, d, OperationDirective, input.relatedCode);
    assert read.directive == Some(Found(d, db.rows[d]));
    assert LiveConfirmations(db, db.rows[d].code) == {};
    var b := CreateBlock(c, Receipt(db.rows[d], code, input), caller);
    assert Plan(req, caller, c.id, read) == Ok([b]);
    AtomicIsBlock(db, req, caller, c.id, b);
    forall k | k != c ensures Entries(db.audits + [b.audit], k) == Entries(db.audits, k) {
      CountsPush(db.audits, b.audit, k);
    }
  }

  /** Saves that match live rows all apply. */
  lemma {:induction false} MatchingSavesApply(db: Db, blocks: seq<Block>)
    requires DistinctKeys(blocks)
    requires forall i :: 0 <= i < |blocks| ==>
      && blocks[i].write.Save? && blocks[i].approval.None?
      && LiveAt(db, blocks[i].key) && db.rows[blocks[i].key].version == blocks[i].write.expected
      && (i > 0 ==> blocks[i].key.kind != ExecutionConfirmation)
    requires blocks != [] && blocks[0].key.kind == ExecutionConfirmation ==>
      !LinkHeldByOther(db.rows, blocks[0].key, blocks[0].write.row.business.relatedCode)
    ensures ApplyAll(db, blocks).Ok?
    decreases |blocks|
  {
    if blocks == [] {
    } else {
      BlockFrame(db, blocks[0]);
      DistinctTail(blocks);
      var mid, rest := ApplyBlock(db, blocks[0]).value, blocks[1..];
      forall i | 0 <= i < |rest|
        ensures rest[i].write.Save? && rest[i].approval.None?
        ensures LiveAt(mid, rest[i].key) && mid.rows[rest[i].key].version == rest[i].write.expected
        ensures rest[i].key.kind != ExecutionConfirmation
      {
        assert rest[i] == blocks[i + 1];
        assert blocks[0].key != blocks[i + 1].key;
      }
      MatchingSavesApply(mid, rest);
    }
  }

  /** A pending receipt, its executing directive, and a gate that is moving or at
      the directive's target. */
  predicate Confirmable(db: Db, c: Key, d: Key, g: Key) {
    && LiveAt(db, c) && c.kind == ExecutionConfirmation && db.rows[c].status == Pending
    && d.kind == OperationDirective && HasCode(db, d, OperationDirective, db.rows[c].business.relatedCode)
    && db.rows[d].status == Executing
    && g.kind == GateUnit && HasCode(db, g, GateUnit, db.rows[d].business.relatedCode)
    && (db.rows[g].status == Moving || db.rows[g].status == db.rows[d].gateState)
  }

  lemma ConfirmCases(req: Request, caller: Caller, current: Row, read: Reads)
    requires req.Transition? && Parse(TrimSpace(req.target)) == Some(Confirmed) && current.status == Pending
    requires read.directive.Some? && read.directive.value.row.status == Executing
    requires read.gate.Some? && StatusOf(GateUnit, read.directive.value.row.gateState)
    requires read.gate.value.row.status == Moving || read.gate.value.row.status == read.directive.value.row.gateState
    ensures PlanConfirmationTransition(req, caller, current, read).Ok?
  {
    GateEdges(Moving, read.directive.value.row.gateState);
  }

  lemma ConfirmReads(db: Db, c: Key, d: Key, g: Key, reason: string)
    requires Unique(db) && Confirmable(db, c, d, g)
    ensures ReadAll(db, Move(c, db, Confirmed, reason)) ==
            Reads(Some(db.rows[c]), Some(Found(d, db.rows[d])), Some(Found(g, db.rows[g])), 0)
  {
    assert GetByCode(db, OperationDirective, db.rows[c].business.relatedCode) == Some(Found(d, db.rows[d]));
    assert GetByCode(db, GateUnit, db.rows[d].business.relatedCode) == Some(Found(g, db.rows[g]));
  }

  /** Every row a confirmation writes matches what was read, so it is stored. */
  lemma ConfirmStored(db: Db, c: Key, d: Key, g: Key, caller: Caller, id: nat, reason: string, read: Reads)
    requires Unique(db) && Confirmable(db, c, d, g) && StatusOf(GateUnit, db.rows[d].gateState)
    requires read == Reads(Some(db.rows[c]), Some(Found(d, db.rows[d])), Some(Found(g, db.rows[g])), 0)
    ensures var plan := Plan(Move(c, db, Confirmed, reason), caller, id, read);
            plan.Ok? && DistinctKeys(plan.value) && ApplyAll(db, plan.value).Ok?
    ensures var blocks := Plan(Move(c, db, Confirmed, reason), caller, id, read).value;
            && 2 <= |blocks| <= 3
            && blocks[1] == LinkedBlock(Found(d, db.rows[d]), Completed, "execution_outcome", caller, reason)
            && (|blocks| == 3 <==> db.rows[g].status != db.rows[d].gateState)
            && (WritesKey(blocks, g) <==> |blocks| == 3)
  {
    hide TrimSpace;
    var req := Move(c, db, Confirmed, reason);
    TrimName(Confirmed);
    ConfirmCases(req, caller, db.rows[c], read);
    ReceiptPlan(req, caller, db.rows[c], read, Confirmed);
    PlanDocumented(req, caller, id, read);
    var blocks := Plan(req, caller, id, read).value;
    assert !LinkHeldByOther(db.rows, c, db.rows[c].business.relatedCode);
    MatchingSavesApply(db, blocks);
    if |blocks| == 3 { assert blocks[2].key == g; }
  }

  /** Confirming always succeeds from there: the directive completes, the gate ends at
      its target, and a gate audit is written exactly if the gate had to move. */
  lemma ConfirmStep(db: Db, c: Key, d: Key, g: Key, caller: Caller, id: nat, reason: string)
    requires Unique(db) && Confirmable(db, c, d, g) && StatusOf(GateUnit, db.rows[d].gateState)
    ensures var r := Atomic(db, Move(c, db, Confirmed, reason), caller, id);
            && r.Ok? && {c, d, g} <= r.value.rows.Keys
            && r.value.rows[c].status == Confirmed
            && r.value.rows[d].status == Completed && r.value.rows[d].version == db.rows[d].version + 1
            && r.value.rows[g].status == db.rows[d].gateState
            && Entries(r.value.audits, g) == Entries(db.audits, g) + if db.rows[g].status == db.rows[d].gateState
                then 0 else 1
  {
    var req := Move(c, db, Confirmed, reason);
    var read := ReadAll(db, req);
    ConfirmReads(db, c, d, g, reason);
    ConfirmStored(db, c, d, g, caller, id, reason, read);
    TrimName(Confirmed);
    ReceiptSettlesAll(db, req, caller, id, Confirmed);
    PlanDocumented(req, caller, id, read);
    RowAfter(db, Plan(req, caller, id, read).value, 1);
    TransactionConserves(db, Plan(req, caller, id, read).value, g);
  }

  // ----------------------------------------------------------------- the whole workflow

  /** The people who take a directive from draft to completion. */
  datatype Crew = Crew(submitter: Caller, approver: Caller, executor: Caller, reporter: Caller)

  predicate Staffed(crew: Crew) {
    && crew.submitter.role in {Operator, Admin} && crew.submitter.actor != ""
    && crew.approver.role in {Reviewer, Admin}
    && crew.executor.role in {Operator, Admin}
    && !EqualFold(crew.submitter.actor, crew.approver.actor)
  }

  /** A live draft directive, its live unlocked gate, and no confirmation of its code. */
  predicate Startable(db: Db, d: Key, g: Key) {
    && LiveAt(db, d) && d.kind == OperationDirective && db.rows[d].status == Draft
    && g.kind == GateUnit && HasCode(db, g, GateUnit, db.rows[d].business.relatedCode) && db.rows[g].status != Locked
    && !LinkTaken(db.rows, db.rows[d].code)
  }

  /** Two states that differ at most in rows `d` and `g`. */
  predicate SameBut(a: Db, b: Db, d: Key, g: Key) {
    a.rows.Keys == b.rows.Keys && forall k :: k in a.rows && k != d && k != g ==> b.rows[k] == a.rows[k]
  }

  /** One transition of the directive alone, from a valid state to a valid state. */
  lemma QuietStep(db: Db, d: Key, g: Key, to: Status, caller: Caller, reason: string) returns (s: Db)
    requires Valid(db) && LiveAt(db, d) && d.kind == OperationDirective && d != g
    requires CanTransition(DIRECTIVE_TRANSITIONS, db.rows[d].status, to) && to != Completed
    requires MayMove(db.rows[d], to, caller) && !NeedsGate(db.rows[d].status, to)
    ensures Atomic(db, Move(d, db, to, reason), caller, 0) == Ok(s)
    ensures Valid(s)
    ensures s.rows == db.rows[d := Moved(db.rows[d], to, caller)]
    ensures Entries(s.audits, g) == Entries(db.audits, g)
  {
    MoveWithoutGate(db, d, to, caller, 0, reason);
    s := Atomic(db, Move(d, db, to, reason), caller, 0).value;
    AtomicKeeps(db, Move(d, db, to, reason), caller, 0);
  }

  lemma StartStep(db: Db, d: Key, g: Key, caller: Caller, reason: string) returns (s: Db)
    requires Valid(db) && Executable(db, d, g, caller)
    ensures Atomic(db, Move(d, db, Executing, reason), caller, 0) == Ok(s)
    ensures Valid(s)
    ensures s.rows == db.rows[d := Moved(db.rows[d], Executing, caller)][g := Started(db.rows[g], db.rows[d].gateState)]
    ensures Entries(s.audits, g) == Entries(db.audits, g) +
              if Started(db.rows[g], db.rows[d].gateState) == db.rows[g] then 0 else 1
  {
    ExecuteStep(db, d, g, caller, 0, reason);
    s := Atomic(db, Move(d, db, Executing, reason), caller, 0).value;
    AtomicKeeps(db, Move(d, db, Executing, reason), caller, 0);
  }

  lemma ReportStep(db: Db, d: Key, c: Key, caller: Caller, code: string, input: Business, g: Key) returns (s: Db)
    requires Valid(db) && LiveAt(db, d) && d.kind == OperationDirective && db.rows[d].status == Executing
    requires Creatable(db, d, c, code, input) && g != c
    ensures Atomic(db, Create(ExecutionConfirmation, code, input, None, None), caller, c.id) == Ok(s)
    ensures Valid(s)
    ensures s.rows == db.rows[c := Receipt(db.rows[d], code, input)]
    ensures Entries(s.audits, g) == Entries(db.audits, g)
  {
    CreateStep(db, d, c, caller, code, input);
    s := Atomic(db, Create(ExecutionConfirmation, code, input, None, None), caller, c.id).value;
    AtomicKeeps(db, Create(ExecutionConfirmation, code, input, None, None), caller, c.id);
  }

  lemma DraftEdges()
    ensures CanTransition(DIRECTIVE_TRANSITIONS, Draft, Pending)
        && CanTransition(DIRECTIVE_TRANSITIONS, Pending, Approved)
  {
  }

  /** A directive after submission and approval. */
  function SubmittedAndApprovedRow(draft: Row, crew: Crew): Row {
    Moved(Moved(draft, Pending, crew.submitter), Approved, crew.approver)
  }

  lemma SubmitAndApprove(db: Db, d: Key, g: Key, crew: Crew, reason: string) returns (s1: Db, s2: Db)
    requires Valid(db) && LiveAt(db, d) && d.kind == OperationDirective && db.rows[d].status == Draft && d != g
    requires Staffed(crew)
    ensures Atomic(db, Move(d, db, Pending, reason), crew.submitter, 0) == Ok(s1)
    ensures d in s1.rows && Atomic(s1, Move(d, s1, Approved, reason), crew.approver, 0) == Ok(s2)
    ensures Valid(s2)
    ensures SameBut(db, s2, d, d) && s2.rows[d] == SubmittedAndApprovedRow(db.rows[d], crew)
    ensures Entries(s2.audits, g) == Entries(db.audits, g)
  {
    hide Valid, Atomic;
    DraftEdges();
    s1 := QuietStep(db, d, g, Pending, crew.submitter, reason);
    assert s1.rows[d] == Moved(db.rows[d], Pending, crew.submitter);
    s2 := QuietStep(s1, d, g, Approved, crew.approver, reason);
  }

  lemma ApprovedIsExecutable(db: Db, s2: Db, d: Key, g: Key, crew: Crew)
    requires Startable(db, d, g) && Staffed(crew) && SameBut(db, s2, d, d)
        && s2.rows[d] == SubmittedAndApprovedRow(db.rows[d], crew)
    ensures Executable(s2, d, g, crew.executor) && s2.rows[g] == db.rows[g]
  {
  }

  lemma RunningIsReportable(db: Db, s2: Db, s3: Db, d: Key, g: Key, c: Key, crew: Crew, code: string, input: Business)
    requires Startable(db, d, g) && Staffed(crew) && SameBut(db, s2, d, d)
        && s2.rows[d] == SubmittedAndApprovedRow(db.rows[d], crew)
    requires Executable(s2, d, g, crew.executor) && Creatable(db, d, c, code, input)
    requires s3.rows == s2.rows[d := Moved(s2.rows[d], Executing, crew.executor)][g := Started(s2.rows[g],
        s2.rows[d].gateState)]
    ensures LiveAt(s3, d) && s3.rows[d].status == Executing && s3.rows[d].version == db.rows[d].version + 3
    ensures s3.rows[d].gateState == db.rows[d].gateState
    ensures HasCode(s3, g, GateUnit, s3.rows[d].business.relatedCode)
    ensures s3.rows[g] == Started(db.rows[g], db.rows[d].gateState)
    ensures Creatable(s3, d, c, code, input)
  {
    assert s3.rows[d].code == db.rows[d].code;
    assert SameBut(db, s3, d, g);
    StillCreatable(db, s3, d, g, c, code, input);
  }

  lemma ReceiptIsConfirmable(s3: Db, s4: Db, d: Key, g: Key, c: Key, code: string, input: Business)
    requires LiveAt(s3, d) && d.kind == OperationDirective && s3.rows[d].status == Executing
    requires Shaped(OperationDirective, s3.rows[d]) && Creatable(s3, d, c, code, input)
    requires g.kind == GateUnit && HasCode(s3, g, GateUnit, s3.rows[d].business.relatedCode)
    requires s3.rows[g].status == Moving || s3.rows[g].status == s3.rows[d].gateState
    requires s4.rows == s3.rows[c := Receipt(s3.rows[d], code, input)]
    ensures Confirmable(s4, c, d, g) && s4.rows[d] == s3.rows[d] && s4.rows[g] == s3.rows[g]
  {
  }

  lemma ReportAndConfirm(s3: Db, d: Key, g: Key, c: Key, crew: Crew, code: string, input: Business, reason: string)
    returns (s4: Db, s5: Db)
    requires Valid(s3) && LiveAt(s3, d) && d.kind == OperationDirective && s3.rows[d].status == Executing
    requires Creatable(s3, d, c, code, input)
    requires g.kind == GateUnit && HasCode(s3, g, GateUnit, s3.rows[d].business.relatedCode)
    requires s3.rows[g].status == Moving || s3.rows[g].status == s3.rows[d].gateState
    ensures Atomic(s3, Create(ExecutionConfirmation, code, input, None, None), crew.reporter, c.id) == Ok(s4)
    ensures c in s4.rows && Atomic(s4, Move(c, s4, Confirmed, reason), crew.reporter, 0) == Ok(s5)
    ensures {c, d, g} <= s5.rows.Keys && s5.rows[c].status == Confirmed
    ensures s5.rows[d].status == Completed && s5.rows[d].version == s3.rows[d].version + 1
    ensures s5.rows[g].status == s3.rows[d].gateState
    ensures Entries(s5.audits, g) == Entries(s3.audits, g) + if s3.rows[g].status == s3.rows[d].gateState then 0 else 1
  {
    s4 := ReportStep(s3, d, c, crew.reporter, code, input, g);
    assert Shaped(d.kind, s3.rows[d]);
    ReceiptIsConfirmable(s3, s4, d, g, c, code, input);
    ConfirmStep(s4, c, d, g, crew.reporter, 0, reason);
    s5 := Atomic(s4, Move(c, s4, Confirmed, reason), crew.reporter, 0).value;
  }

  /** Gate audits of a whole workflow, by where the gate starts. */
  function GateMoves(start: Status, target: Status): nat {
    if start == target then 0 else if start == Moving || target == Moving then 1 else 2
  }

  lemma GateMovesAddUp(gate: Row, target: Status)
    ensures (if Started(gate, target) == gate then 0 else 1)
            + (if Started(gate, target).status == target then 0 else 1) == GateMoves(gate.status, target)
    ensures Started(gate, target).status == Moving || Started(gate, target).status == target
  {
  }

  /** End to end: from any valid state with a live unlocked gate and no confirmation
      of the directive's code, two people whose names differ up to case can always
      take a draft to completion. The directive gains four versions, the gate ends at
      the directive's target, and the gate is logged once for every move it made. */
  lemma EndToEnd(db: Db, d: Key, g: Key, c: Key, crew: Crew, code: string, input: Business, reason: string)
    returns (s1: Db, s2: Db, s3: Db, s4: Db, s5: Db)
    requires Valid(db) && Startable(db, d, g) && Staffed(crew) && Creatable(db, d, c, code, input)
    ensures Atomic(db, Move(d, db, Pending, reason), crew.submitter, 0) == Ok(s1)
    ensures d in s1.rows && Atomic(s1, Move(d, s1, Approved, reason), crew.approver, 0) == Ok(s2)
    ensures d in s2.rows && Atomic(s2, Move(d, s2, Executing, reason), crew.executor, 0) == Ok(s3)
    ensures Atomic(s3, Create(ExecutionConfirmation, code, input, None, None), crew.reporter, c.id) == Ok(s4)
    ensures c in s4.rows && Atomic(s4, Move(c, s4, Confirmed, reason), crew.reporter, 0) == Ok(s5)
    ensures {c, d, g} <= s5.rows.Keys && s5.rows[c].status == Confirmed
    ensures s5.rows[d].status == Completed && s5.rows[d].version == db.rows[d].version + 4
    ensures s5.rows[g].status == db.rows[d].gateState
    ensures Entries(s5.audits, g) == Entries(db.audits, g) + GateMoves(db.rows[g].status, db.rows[d].gateState)
  {
    hide Valid, Atomic, Move, Entries, MayMove, DirectiveRoleAllowed, SameBut, Started, GateMoves;
    s1, s2 := SubmitAndApprove(db, d, g, crew, reason);
    ApprovedIsExecutable(db, s2, d, g, crew);
    s3 := StartStep(s2, d, g, crew.executor, reason);
    RunningIsReportable(db, s2, s3, d, g, c, crew, code, input);
    GateMovesAddUp(db.rows[g], db.rows[d].gateState);
    s4, s5 := ReportAndConfirm(s3, d, g, c, crew, code, input, reason);
  }

  lemma StillCreatable(a: Db, b: Db, d: Key, g: Key, c: Key, code: string, input: Business)
    requires Creatable(a, d, c, code, input) && SameBut(a, b, d, g)
    requires d.kind == OperationDirective && g.kind == GateUnit && b.rows[d].code == a.rows[d].code
    ensures Creatable(b, d, c, code, input)
  {
  }
}
