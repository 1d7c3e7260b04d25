/** What one-step handlers do to the linked gate. A gate that is read but not written
    is not validated when a handler commits later, so these outcomes are stated for
    handlers that read and commit in one step. */
module GateOutcomes {
  import opened Outcomes
  import opened Text
  import opened Statuses
  import opened Records
  import opened Transactions
  import opened Handlers
  import opened Interleaving
  import opened Versions
  import opened Lifecycle
  import opened Reachability

  /** The gate a directive row names. */
  ghost function GateOf(db: Db, directive: Row): Option<Found> {
    GetByCode(db, GateUnit, directive.business.relatedCode)
  }

  /** Whatever its status, a gate can be locked, so the check before locking never
      refuses an abort or a failed receipt. */
  lemma LockingNeverRefused(directive: Row, gate: Row)
    requires StatusOf(GateUnit, gate.status)
    ensures GateMove(directive, Aborted, gate).Ok?
    ensures gate.status == Locked || CanTransition(GATE_TRANSITIONS, gate.status, Locked)
  {
    GateEdges(gate.status, Locked);
  }

  /** The gate statuses a directive transition promises. */
  predicate GateSettled(directive: Row, to: Status, gate: Status) {
    && (to == Executing ==> gate != Locked && (gate == Moving || gate == directive.gateState))
    && (to == Aborted ==> gate == Locked)
  }

  /** The gate rules of a directive transition. */
  lemma GateMoveSettles(directive: Row, to: Status, gate: Row)
    requires GateMove(directive, to, gate).Ok? && (to == Executing || to == Aborted)
    ensures var move := GateMove(directive, to, gate).value;
            var settled := if move.Some? then move.value else gate.status;
            GateSettled(directive, to, settled)
  {
  }

  lemma DirectivePlanMovesGate(req: Request, caller: Caller, current: Row, read: Reads, to: Status)
    requires req.Transition? && req.key.kind == OperationDirective && Parse(TrimSpace(req.target)) == Some(to)
    requires NeedsGate(current.status, to) && PlanDirectiveTransition(req, caller, current, read).Ok?
    ensures var blocks := PlanDirectiveTransition(req, caller, current, read).value;
            && read.gate.Some? && GateMove(current, to, read.gate.value.row).Ok?
            && var move := GateMove(current, to, read.gate.value.row).value;
               if move.None? then blocks == [DirectiveBlock(req, caller, current, to)]
               else blocks == [DirectiveBlock(req, caller, current, to),
                               LinkedBlock(read.gate.value, move.value, "directive_execution", caller, req.reason)]
  {
  }

  /** Starting or aborting an execution settles the gate: after starting, it is moving
      or already at the directive's target, and never locked; after aborting, locked. */
  lemma DirectiveSettlesGate(db: Db, req: Request, caller: Caller, id: nat, to: Status)
    requires req.Transition? && req.key.kind == OperationDirective && Parse(TrimSpace(req.target)) == Some(to)
    requires Atomic(db, req, caller, id).Ok? && LiveAt(db, req.key) && NeedsGate(db.rows[req.key].status, to)
    ensures var next := Atomic(db, req, caller, id).value;
            var directive := db.rows[req.key];
            var gate := GateOf(db, directive);
            && req.key in next.rows && next.rows[req.key].status == to
            && gate.Some? && gate.value.key in next.rows
            && GateSettled(directive, to, next.rows[gate.value.key].status)
  {
    var read := ReadAll(db, req);
    var current := db.rows[req.key];
    DirectivePlanMovesGate(req, caller, current, read, to);
    GateMoveSettles(current, to, read.gate.value.row);
    var blocks := Plan(req, caller, id, read).value;
    PlanDocumented(req, caller, id, read);
    RowAfter(db, blocks, 0);
    var g := read.gate.value.key;
    if |blocks| == 2 {
      RowAfter(db, blocks, 1);
    } else {
      assert blocks[0].key != g;
      RowUntouched(db, blocks, g);
    }
  }

  lemma ReceiptPlan(req: Request, caller: Caller, current: Row, read: Reads, to: Status)
    requires req.Transition? && req.key.kind == ExecutionConfirmation && Parse(TrimSpace(req.target)) == Some(to)
    requires current.status == Pending && PlanConfirmationTransition(req, caller, current, read).Ok?
    ensures read.directive.Some? && read.gate.Some?
    ensures var blocks := PlanConfirmationTransition(req, caller, current, read).value;
            var (directiveTo, gateTo) := OutcomeTargets(to, read.directive.value.row);
            && 2 <= |blocks| <= 3
            && blocks[0] == ConfirmationBlock(req, caller, current, to)
            && blocks[1] == LinkedBlock(read.directive.value, directiveTo, "execution_outcome", caller, req.reason)
            && (|blocks| == 2 <==> read.gate.value.row.status == gateTo)
            && (|blocks| == 3 ==> blocks[2] == LinkedBlock(read.gate.value, gateTo, "execution_outcome", caller,
                req.reason))
  {
  }

  /** A receipt settles three rows: a confirmation completes its directive and leaves
      the gate at the directive's target; a failure aborts it and leaves the gate locked. */
  lemma ReceiptSettlesAll(db: Db, req: Request, caller: Caller, id: nat, to: Status)
    requires req.Transition? && req.key.kind == ExecutionConfirmation && Parse(TrimSpace(req.target)) == Some(to)
    requires Atomic(db, req, caller, id).Ok? && LiveAt(db, req.key) && db.rows[req.key].status == Pending
    ensures var next := Atomic(db, req, caller, id).value;
            var directive := GetByCode(db, OperationDirective, db.rows[req.key].business.relatedCode);
            && directive.Some? && GateOf(db, directive.value.row).Some?
            && var gate := GateOf(db, directive.value.row).value;
               && {req.key, directive.value.key, gate.key} <= next.rows.Keys
               && next.rows[req.key].status == to
               && next.rows[req.key].confirmedBy == (if to == Confirmed then caller.actor
                   else db.rows[req.key].confirmedBy)
               && next.rows[directive.value.key].status == (if to == Confirmed then Completed else Aborted)
               && next.rows[gate.key].status == (if to == Confirmed then directive.value.row.gateState else Locked)
  {
    hide TrimSpace, Canon, CanTransition;
    var read := ReadAll(db, req);
    ReceiptPlan(req, caller, db.rows[req.key], read, to);
    var blocks := Plan(req, caller, id, read).value;
    PlanDocumented(req, caller, id, read);
    RowAfter(db, blocks, 0);
    RowAfter(db, blocks, 1);
    var g := read.gate.value.key;
    if |blocks| == 3 {
      RowAfter(db, blocks, 2);
    } else {
      RowUntouched(db, blocks, g);
    }
  }

  /** An entry for row `k` that names the caller, the request and its reason. */
  predicate Attributed(a: Audit, k: Key, caller: Caller, reason: string) {
    && a.key == k && a.detail == reason
    && (caller.actor != "" ==> a.actor == caller.actor)
    && (caller.requestId != "" ==> a.requestId == caller.requestId)
    && a.actor != "" && a.requestId != ""
  }

  /** The same receipt leaves two or three entries under its caller's name and request:
      for the confirmation, for the directive, and for the gate exactly if it moved. */
  lemma ReceiptLogsEachMove(db: Db, req: Request, caller: Caller, id: nat, to: Status)
    requires req.Transition? && req.key.kind == ExecutionConfirmation && Parse(TrimSpace(req.target)) == Some(to)
    requires Atomic(db, req, caller, id).Ok? && LiveAt(db, req.key) && db.rows[req.key].status == Pending
    ensures var next := Atomic(db, req, caller, id).value;
            var read := ReadAll(db, req);
            && read.directive.Some? && read.gate.Some? && |db.audits| <= |next.audits|
            && var log := next.audits[|db.audits|..];
               && 2 <= |log| <= 3
               && Attributed(log[0], req.key, caller, req.reason)
               && Attributed(log[1], read.directive.value.key, caller, req.reason)
               && (|log| == 3 ==> Attributed(log[2], read.gate.value.key, caller, req.reason))
               && (|log| == 3 <==> read.gate.value.row.status != OutcomeTargets(to, read.directive.value.row).1)
  {
    var read := ReadAll(db, req);
    ReceiptPlan(req, caller, db.rows[req.key], read, to);
    var blocks := Plan(req, caller, id, read).value;
    TransactionLogs(db, blocks);
    assert Atomic(db, req, caller, id).value.audits[|db.audits|..] == EntriesOf(blocks);
  }

  // -------------------------------------------------- the same outcomes, interleaved

  /** A receipt that commits later leaves the gate it read at its target exactly if it
      had to move the gate, or the stored gate happens to be at the target. */
  lemma ReceiptGateOutcomeIff(db: Db, o: Op, id: nat, to: Status)
    requires OpOk(db, o) && Effect(db, o, id).Ok?
    requires o.req.Transition? && o.req.key.kind == ExecutionConfirmation && Parse(TrimSpace(o.req.target)) == Some(to)
    requires o.read.primary.Some? && o.read.primary.value.status == Pending
    ensures o.read.directive.Some? && o.read.gate.Some?
    ensures var next := Effect(db, o, id).value;
            var gate := o.read.gate.value;
            var target := OutcomeTargets(to, o.read.directive.value.row).1;
            && gate.key in db.rows && gate.key in next.rows
            && (next.rows[gate.key].status == target <==>
                gate.row.status != target || db.rows[gate.key].status == target)
  {
    hide Follows, Shaped;
    ReceiptPlan(o.req, o.caller, o.read.primary.value, o.read, to);
    PlanDocumented(o.req, o.caller, id, o.read);
    LastBlockOrUntouched(db, Plan(o.req, o.caller, id, o.read).value, 2, o.read.gate.value.key);
  }

  /** The row of block `i`, if there is one for `k`, or an untouched row. */
  lemma LastBlockOrUntouched(db: Db, blocks: seq<Block>, i: nat, k: Key)
    requires DistinctKeys(blocks) && ApplyAll(db, blocks).Ok? && i <= |blocks| <= i + 1 && k in db.rows
    requires forall j :: 0 <= j < i ==> blocks[j].key != k
    requires i < |blocks| ==> blocks[i].key == k && blocks[i].write.Save?
    ensures k in ApplyAll(db, blocks).value.rows
    ensures var status := ApplyAll(db, blocks).value.rows[k].status;
            status == if i < |blocks| then blocks[i].write.row.status else db.rows[k].status
  {
    if i < |blocks| { RowAfter(db, blocks, i); } else { RowUntouched(db, blocks, k); }
  }

  /** A start or abort that commits later keeps its promise exactly if it had to move
      the gate, or the stored gate happens to fit. */
  lemma DirectiveGateOutcomeIff(db: Db, o: Op, id: nat, to: Status)
    requires OpOk(db, o) && Effect(db, o, id).Ok?
    requires o.req.Transition? && o.req.key.kind == OperationDirective && Parse(TrimSpace(o.req.target)) == Some(to)
    requires o.read.primary.Some? && NeedsGate(o.read.primary.value.status, to)
    ensures o.read.gate.Some?
    ensures var next := Effect(db, o, id).value;
            var directive, gate := o.read.primary.value, o.read.gate.value;
            && GateMove(directive, to, gate.row).Ok?
            && gate.key in db.rows && gate.key in next.rows
            && (GateSettled(directive, to, next.rows[gate.key].status) <==>
                GateMove(directive, to, gate.row).value.Some? || GateSettled(directive, to, db.rows[gate.key].status))
  {
    hide Follows, Shaped;
    var current := o.read.primary.value;
    DirectivePlanMovesGate(o.req, o.caller, current, o.read, to);
    GateMoveSettles(current, to, o.read.gate.value.row);
    PlanDocumented(o.req, o.caller, id, o.read);
    LastBlockOrUntouched(db, Plan(o.req, o.caller, id, o.read).value, 1, o.read.gate.value.key);
  }
}
