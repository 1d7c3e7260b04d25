/** The directive service, step by step. */
module OperationDirectiveService {
  import opened Outcomes
  import opened Text
  import opened Statuses
  import opened Records
  import opened Transactions
  import opened Handlers
  import opened Faults
  import opened Storage
  import opened Security

  /** The blocks of a directive transition, with its gate move if there is one. */
  function WithGate(own: Block, gate: Option<Found>, target: Option<Status>, caller: Caller,
      reason: string): seq<Block> {
    if gate.None? || target.None? || gate.value.row.status == target.value then [own]
    else [own, LinkedBlock(gate.value, target.value, "directive_execution", caller, reason)]
  }

  /** What the handler must learn about the linked gate: nothing if it does not need
      it, else the gate and the status to move it to, or why it cannot. */
  ghost predicate GateAnswer(db: Db, current: Row, to: Status, r: Result<(Option<Found>, Option<Status>)>) {
    if !NeedsGate(current.status, to) then r == Ok((None, None))
    else
      match GetByCode(db, GateUnit, current.business.relatedCode)
      case None => r == Err(NotFound)
      case Some(gate) =>
        match GateMove(current, to, gate.row)
        case Err(e) => r == Err(e)
        case Ok(move) =>
          && r.Ok? && r.value.0 == Some(gate)
          && if move.Some? then r.value.1 == move && gate.row.status != move.value
             else r.value.1.None? || r.value.1.value == gate.row.status
  }

  /** The plan of a directive transition that has passed the graph and role checks. */
  lemma TransitionPlan(db: Db, req: Request, caller: Caller, id: nat, to: Status,
      gated: Result<(Option<Found>, Option<Status>)>)
    requires req.Transition? && req.key.kind == OperationDirective && LiveAt(db, req.key)
    requires Parse(TrimSpace(req.target)) == Some(to)
    requires CanTransition(DIRECTIVE_TRANSITIONS, db.rows[req.key].status, to) && to != Completed
    requires DirectiveRoleAllowed(to, caller.role) && GateAnswer(db, db.rows[req.key], to, gated)
    ensures var current := db.rows[req.key];
            Plan(req, caller, id, ReadAll(db, req)) ==
            if gated.Err? then Err(gated.error)
            else if to == Approved && (current.submittedBy == ""
                || EqualFold(current.submittedBy, caller.actor)) then Err(TwoPersonRequired)
            else Ok(WithGate(DirectiveBlock(req, caller, current, to), gated.value.0, gated.value.1, caller,
                req.reason))
  {
    var read := ReadAll(db, req);
    assert read.primary == Some(db.rows[req.key]);
    if NeedsGate(db.rows[req.key].status, to) {
      assert read.gate == GetByCode(db, GateUnit, db.rows[req.key].business.relatedCode);
    }
  }

  /** A directive transition that the graph or the caller's role rules out. */
  lemma TransitionRefused(db: Db, req: Request, caller: Caller, id: nat)
    requires req.Transition? && req.key.kind == OperationDirective && LiveAt(db, req.key)
    ensures var to := Parse(TrimSpace(req.target));
            var plan := Plan(req, caller, id, ReadAll(db, req));
            if to.None? || !CanTransition(DIRECTIVE_TRANSITIONS, db.rows[req.key].status, to.value)
                || to.value == Completed
            then plan == Err(InvalidTransition)
            else !DirectiveRoleAllowed(to.value, caller.role) ==> plan == Err(Forbidden)
  {
  }

  lemma OwnIsFirst(own: Block, gate: Option<Found>, target: Option<Status>, caller: Caller, reason: string)
    ensures WithGate(own, gate, target, caller, reason)[0] == own
  {
  }

  class OperationDirectiveService {
    const store: Database
    const security: SecurityService

    predicate Ready()
      reads store
    {
      security.store == store && store.Idle()
    }

    constructor (store: Database)
      requires store.Idle()
      ensures this.store == store && Ready()
    {
      this.store := store;
      security := new SecurityService(store);
    }

    method Create(code: string, input: Business, gateState: Option<Status>, caller: Caller) returns (r: Result<Row>)
      requires Ready()
      modifies store
      ensures Ready()
      ensures Handled(old(store.View()), store.View(), Request.Create(OperationDirective, code, input, gateState,
          None), caller,
                      old(store.nextId), store.faults, old(store.writes), ErrorOf(r))
      ensures r.Ok? ==> store.View().rows == old(store.View()).rows[Key(OperationDirective,
          old(store.nextId)) := r.value]
    {
      if !ValidFields(code, input) { return Err(InvalidInput); }
      var gate := store.GetByCode(GateUnit, input.relatedCode);
      if gate.None? { return Err(NotFound); }
      if !GateAccepts(input, gate.value.row) { return Err(InvalidInput); }
      var target := if gateState.Some? then gateState.value else Closed;
      var item := NewRow(OperationDirective, code, Tidy(input), target);
      ghost var start, n := store.View(), store.writes;
      ghost var b := CreateBlock(Key(OperationDirective, store.nextId), item, caller);
      var id, e := security.Created(OperationDirective, item, caller);
      if e.Some? { return Err(e.value); }
      CreatedRow(start, store.View(), b, store.faults, n);
      r := Ok(item);
    }

    method Update(id: nat, expected: nat, input: Business, gateState: Option<Status>, caller: Caller)
        returns (r: Result<Row>)
      requires Ready()
      modifies store
      ensures Ready()
      ensures Handled(old(store.View()), store.View(), Request.Update(Key(OperationDirective, id), expected, input,
          gateState, None), caller,
                      old(store.nextId), store.faults, old(store.writes), ErrorOf(r))
      ensures r.Ok? ==> Records.Get(store.View(), Key(OperationDirective, id)) == Some(r.value)
    {
      var key := Key(OperationDirective, id);
      var found := store.Get(key);
      if found.None? { return Err(NotFound); }
      var current := found.value;
      if current.status != Draft { return Err(ImmutableState); }
      if !ValidFields(current.code, input) { return Err(InvalidInput); }
      var gate := store.GetByCode(GateUnit, input.relatedCode);
      if gate.None? { return Err(NotFound); }
      if !GateAccepts(input, gate.value.row) { return Err(InvalidInput); }
      current := current.(business := Tidy(input));
      if gateState.Some? { current := current.(gateState := gateState.value); }
      ghost var start, n := store.View(), store.writes;
      var e := security.Updated(key, expected, current, caller);
      if e.Some? { return Err(e.value); }
      SavedRowIsFound(start, store.View(), [UpdateBlock(key, expected, current, caller)], store.faults, n);
      found := store.Get(key);
      r := Ok(found.value);
    }

    /** Where the linked gate must go before directive `current` may move to `to`. */
    method GateTarget(current: Row, to: Status) returns (r: Result<(Option<Found>, Option<Status>)>)
      requires store.Idle()
      ensures GateAnswer(store.View(), current, to, r)
    {
      if to != Executing && !(current.status == Executing && to == Aborted) { return Ok((None, None)); }
      var gate := store.GetByCode(GateUnit, current.business.relatedCode);
      if gate.None? { return Err(NotFound); }
      var status := gate.value.row.status;
      if to == Executing && status == Locked { return Err(InvalidInput); }
      var target := None;
      if to == Aborted {
        target := Some(Locked);
      } else if status != current.gateState {
        target := Some(Moving);
      }
      if target.Some? && status != target.value && !CanTransition(GATE_TRANSITIONS, status, target.value) {
        return Err(InvalidTransition);
      }
      r := Ok((gate, target));
    }

    /** The body of the transaction. */
    method TransitionThenMoveGate(own: Block, gate: Option<Found>, target: Option<Status>, caller: Caller,
        reason: string)
      returns (e: Option<Error>)
      requires security.store == store && store.Valid() && store.savepoints != [] && own.write.Save?
      modifies store
      ensures store.Valid() && store.savepoints == old(store.savepoints)
      ensures var steps := Steps(WithGate(own, gate, target, caller, reason));
              && Done(old(store.View()), store.View(), steps, |steps|, store.faults, old(store.writes), e)
              && (e.None? ==> store.writes == old(store.writes) + |steps|)
    {
      ghost var start, n := store.View(), store.writes;
      ghost var steps := Steps(WithGate(own, gate, target, caller, reason));
      OneBlockSteps(own);
      NothingDone(start, steps, store.faults, n);
      assert own == Block(own.key, Save(own.write.expected, own.write.row), own.approval, own.audit);
      hide Steps, StepsOf, LinkedBlock, Perform, Done, Concluded, Database.Valid, Database.View;
      e := store.TransitionWithApproval(own.key, own.write.expected, own.write.row, own.approval, own.audit);
      ghost var k := |StepsOf(own)|;
      assert steps[0..k] == StepsOf(own);
      Advance(start, start, store.View(), steps, 0, k, store.faults, n, e);
      if e.Some? || gate.None? || target.None? || gate.value.row.status == target.value { return; }
      ghost var b := LinkedBlock(gate.value, target.value, "directive_execution", caller, reason);
      TwoBlockSteps(own, b);
      assert steps[k..|steps|] == StepsOf(b);
      ghost var mid := store.View();
      e := security.MoveLinked(gate.value, target.value, "directive_execution", caller, reason);
      AdvanceDone(start, mid, store.View(), steps, k, |steps|, store.faults, n, e);
    }

    /** The transaction of a directive transition. */
    method Commit(own: Block, gate: Option<Found>, target: Option<Status>, caller: Caller, reason: string)
      returns (e: Option<Error>)
      requires Ready() && own.write.Save?
      modifies store
      ensures Ready()
      ensures Concluded(old(store.View()), store.View(),
                      Transact(old(store.View()), Steps(WithGate(own, gate, target, caller, reason)), store.faults,
                          old(store.writes)), e)
    {
      ghost var start, n := store.View(), store.writes;
      ghost var steps := Steps(WithGate(own, gate, target, caller, reason));
      hide Steps, Transact, Done, Ended, Concluded, WithGate, Database.Valid, Database.View;
      store.Begin();
      e := TransitionThenMoveGate(own, gate, target, caller, reason);
      ghost var inside, d, m := store.View(), e, store.writes;
      e := store.Finish(e);
      Conclude(false, start, inside, store.View(), steps, store.faults, n, m, d, e);
    }

    /** The checks of a directive transition, in order; nothing is written yet. */
    method Check(req: Request, current: Row, caller: Caller)
      returns (r: Result<(Status, Option<Found>, Option<Status>)>)
      requires Ready() && req.Transition? && req.key.kind == OperationDirective
      requires Records.Get(store.View(), req.key) == Some(current)
      ensures forall id :: Plan(req, caller, id, ReadAll(store.View(), req)) ==
                match r
                case Err(e) => Err(e)
                case Ok((to, gate, target)) =>
                  Ok(WithGate(DirectiveBlock(req, caller, current, to), gate, target, caller, req.reason))
    {
      ghost var db := store.View();
      var parsed := Parse(TrimSpace(req.target));
      forall id { TransitionRefused(db, req, caller, id); }
      if parsed.None? || !CanTransition(DIRECTIVE_TRANSITIONS, current.status, parsed.value) {
        return Err(InvalidTransition);
      }
      var to := parsed.value;
      if to == Completed { return Err(InvalidTransition); }
      if !DirectiveRoleAllowed(to, caller.role) { return Err(Forbidden); }
      var gated := GateTarget(current, to);
      forall id { TransitionPlan(db, req, caller, id, to, gated); }
      if gated.Err? { return Err(gated.error); }
      if to == Approved {
        if current.submittedBy == "" || EqualFold(current.submittedBy, caller.actor) { return Err(TwoPersonRequired); }
      }
      r := Ok((to, gated.value.0, gated.value.1));
    }

    method Transition(id: nat, expected: nat, target: string, reason: string, caller: Caller) returns (r: Result<Row>)
      requires Ready()
      modifies store
      ensures Ready()
      ensures Handled(old(store.View()), store.View(), Request.Transition(Key(OperationDirective, id), expected,
          target, reason),
                      caller, old(store.nextId), store.faults, old(store.writes), ErrorOf(r))
      ensures r.Ok? ==> Records.Get(store.View(), Key(OperationDirective, id)) == Some(r.value)
    {
      var key := Key(OperationDirective, id);
      var found := store.Get(key);
      ghost var start, n, first := store.View(), store.writes, store.nextId;
      var req := Request.Transition(key, expected, target, reason);
      MissingRowRefused(start, req, caller, first);
      hide Plan, ReadAll, Steps, Transact, WithGate, DirectiveBlock, Database.View;
      if found.None? { return Err(NotFound); }
      var checked := Check(req, found.value, caller);
      if checked.Err? { return Err(checked.error); }
      var (to, gate, gateTarget) := checked.value;
      var own := Sign(req, found.value, to, caller);
      ghost var blocks := WithGate(own, gate, gateTarget, caller, reason);
      OwnIsFirst(own, gate, gateTarget, caller, reason);
      var e := Commit(own, gate, gateTarget, caller, reason);
      if e.Some? { return Err(e.value); }
      FirstRowIsFound(start, store.View(), req, caller, first, blocks, store.faults, n);
      found := store.Get(key);
      r := Ok(found.value);
    }

    /** The directive's new content with its ledger and audit entries. */
    method Sign(req: Request, directive: Row, to: Status, caller: Caller) returns (own: Block)
      requires req.Transition?
      ensures own == DirectiveBlock(req, caller, directive, to) && own.key == req.key && own.write.Save?
    {
      var key, reason := req.key, req.reason;
      var current, before := directive, directive.status;
      current := current.(status := to);
      var approval := None;
      if to == Pending {
        current := current.(submittedBy := caller.actor);
        approval := Some(Approval(key.id, StageSubmitted, caller.actor, caller.role, caller.requestId,
            TrimSpace(reason), before, to));
      }
      if to == Approved {
        current := current.(approvedBy := caller.actor);
        approval := Some(Approval(key.id, StageApproved, caller.actor, caller.role, caller.requestId,
            TrimSpace(reason), before, to));
      }
      current := current.(version := req.expected + 1);
      own := Block(key, Save(req.expected, current), approval, Recorded(key, caller, before, to, reason));
    }

    method Delete(id: nat, caller: Caller) returns (e: Option<Error>)
      requires Ready()
      modifies store
      ensures Ready()
      ensures Handled(old(store.View()), store.View(), Request.Delete(Key(OperationDirective, id)), caller,
                      old(store.nextId), store.faults, old(store.writes), e)
    {
      var found := store.Get(Key(OperationDirective, id));
      if found.None? { return Some(NotFound); }
      if found.value.status != Draft { return Some(ImmutableState); }
      e := security.Deleted(Key(OperationDirective, id), found.value, caller);
    }
  }
}
