/** The confirmation service, step by step. */
module ExecutionConfirmationService {
  import opened Outcomes
  import opened Text
  import opened Statuses
  import opened Records
  import opened Transactions
  import opened Handlers
  import opened Faults
  import opened Storage
  import opened Security

  /** The linked rows a receipt moves, as they were read, and where to. */
  datatype Linked = Linked(directive: Found, directiveTo: Status, gate: Found, gateTo: Status)

  /** The blocks of a confirmation transition: its own row, then what it moves. */
  function WithOutcome(own: Block, linked: Option<Linked>, caller: Caller, reason: string): seq<Block> {
    match linked
    case None => [own]
    case Some(l) =>
      var outcome := [own, LinkedBlock(l.directive, l.directiveTo, "execution_outcome", caller, reason)];
      if l.gate.row.status == l.gateTo then outcome
      else outcome + [LinkedBlock(l.gate, l.gateTo, "execution_outcome", caller, reason)]
  }

  lemma OutcomeSteps(own: Block, l: Linked, caller: Caller, reason: string)
    ensures Steps(WithOutcome(own, Some(l), caller, reason)) == StepsOf(own) + OutcomeOf(l, caller, reason)
  {
    var blocks := WithOutcome(own, Some(l), caller, reason);
    TwoBlockSteps(own, blocks[1]);
    if |blocks| == 3 {
      assert blocks[1..] == [blocks[1], blocks[2]];
      TwoBlockSteps(blocks[1], blocks[2]);
    }
  }

  /** What the handler must learn about the linked rows: nothing if the confirmation
      is not pending, else where to move them, or why it cannot. */
  ghost predicate LinkedAnswer(db: Db, current: Row, to: Status, r: Result<Option<Linked>>) {
    if current.status != Pending then r == Ok(None)
    else
      match RequireExecuting(GetByCode(db, OperationDirective, current.business.relatedCode))
      case Err(e) => r == Err(e)
      case Ok(directive) =>
        match GetByCode(db, GateUnit, directive.row.business.relatedCode)
        case None => r == Err(NotFound)
        case Some(gate) =>
          var (directiveTo, gateTo) := OutcomeTargets(to, directive.row);
          if gate.row.status != gateTo
              && !CanTransition(GATE_TRANSITIONS, gate.row.status, gateTo) then r == Err(InvalidTransition)
          else r == Ok(Some(Linked(directive, directiveTo, gate, gateTo)))
  }

  lemma TransitionPlan(db: Db, req: Request, caller: Caller, id: nat, to: Status, linked: Result<Option<Linked>>)
    requires req.Transition? && req.key.kind == ExecutionConfirmation && LiveAt(db, req.key)
    requires Parse(TrimSpace(req.target)) == Some(to)
    requires CanTransition(CONFIRMATION_TRANSITIONS, db.rows[req.key].status, to)
    requires LinkedAnswer(db, db.rows[req.key], to, linked)
    ensures Plan(req, caller, id, ReadAll(db, req)) ==
            if linked.Err? then Err(linked.error)
            else Ok(WithOutcome(ConfirmationBlock(req, caller, db.rows[req.key], to), linked.value, caller, req.reason))
  {
    var read := ReadAll(db, req);
    assert read.primary == Some(db.rows[req.key]);
    if db.rows[req.key].status == Pending {
      assert read.directive == GetByCode(db, OperationDirective, db.rows[req.key].business.relatedCode);
    }
  }

  lemma TransitionRefused(db: Db, req: Request, caller: Caller, id: nat)
    requires req.Transition? && req.key.kind == ExecutionConfirmation && LiveAt(db, req.key)
    ensures var to := Parse(TrimSpace(req.target));
            to.None? || !CanTransition(CONFIRMATION_TRANSITIONS, db.rows[req.key].status, to.value) ==>
              Plan(req, caller, id, ReadAll(db, req)) == Err(InvalidTransition)
  {
  }

  lemma OwnBlockIs(req: Request, caller: Caller, row: Row, to: Status, current: Row)
    requires req.Transition?
    requires current == row.(
      status := to, confirmedBy := if to == Confirmed then caller.actor else row.confirmedBy,
          version := req.expected + 1)
    ensures var own := SaveBlock(req.key, req.expected, current, caller, "transition", row.status, req.reason);
            own == ConfirmationBlock(req, caller, row, to) && own.key == req.key && own.write.Save?
  {
  }

  lemma OwnIsFirst(own: Block, linked: Option<Linked>, caller: Caller, reason: string)
    ensures WithOutcome(own, linked, caller, reason)[0] == own
  {
  }

  /** The statements that move the linked rows. */
  function OutcomeOf(l: Linked, caller: Caller, reason: string): seq<Write> {
    StepsOf(LinkedBlock(l.directive, l.directiveTo, "execution_outcome", caller, reason))
    + if l.gate.row.status == l.gateTo then []
      else StepsOf(LinkedBlock(l.gate, l.gateTo, "execution_outcome", caller, reason))
  }

  class ExecutionConfirmationService {
    const store: Database
    const security: SecurityService

    predicate Ready()
      reads store
    {
      security.store == store && store.Idle()
    }

    constructor (store: Database)
      requires store.Idle()
      ensures this.store == store && Ready()
    {
      this.store := store;
      security := new SecurityService(store);
    }

    method RequireExecutingDirective(code: string) returns (r: Result<Found>)
      requires store.Idle()
      ensures r == RequireExecuting(GetByCode(store.View(), OperationDirective, code))
    {
      var directive := store.GetByCode(OperationDirective, code);
      if directive.None? { return Err(NotFound); }
      if directive.value.row.status != Executing { return Err(InvalidInput); }
      r := Ok(directive.value);
    }

    method Create(code: string, input: Business, caller: Caller) returns (r: Result<Row>)
      requires Ready()
      modifies store
      ensures Ready()
      ensures Handled(old(store.View()), store.View(), Request.Create(ExecutionConfirmation, code, input, None,
          None), caller,
                      old(store.nextId), store.faults, old(store.writes), ErrorOf(r))
      ensures r.Ok? ==> store.View().rows == old(store.View()).rows[Key(ExecutionConfirmation,
          old(store.nextId)) := r.value]
    {
      hide ValidFields, CopyFrom, Transact, Steps;
      if !ValidFields(code, input) { return Err(InvalidInput); }
      var directive := RequireExecutingDirective(input.relatedCode);
      if directive.Err? { return Err(directive.error); }
      var count := store.CountByDirectiveCode(directive.value.row.code);
      if count > 0 { return Err(InvalidInput); }
      var item := NewRow(ExecutionConfirmation, code, CopyFrom(directive.value.row, input), Closed);
      ghost var start, n := store.View(), store.writes;
      ghost var b := CreateBlock(Key(ExecutionConfirmation, store.nextId), item, caller);
      var id, e := security.Created(ExecutionConfirmation, item, caller);
      if e.Some? { return Err(e.value); }
      CreatedRow(start, store.View(), b, store.faults, n);
      r := Ok(item);
    }

    method Update(id: nat, expected: nat, input: Business, caller: Caller) returns (r: Result<Row>)
      requires Ready()
      modifies store
      ensures Ready()
      ensures Handled(old(store.View()), store.View(), Request.Update(Key(ExecutionConfirmation, id), expected,
          input, None, None), caller,
                      old(store.nextId), store.faults, old(store.writes), ErrorOf(r))
      ensures r.Ok? ==> Records.Get(store.View(), Key(ExecutionConfirmation, id)) == Some(r.value)
    {
      var key := Key(ExecutionConfirmation, id);
      var found := store.Get(key);
      if found.None? { return Err(NotFound); }
      var current := found.value;
      if !ValidFields(current.code, input) { return Err(InvalidInput); }
      if current.status != Pending { return Err(ImmutableState); }
      if !EqualFold(TrimSpace(input.relatedCode), current.business.relatedCode) { return Err(InvalidInput); }
      var directive := RequireExecutingDirective(current.business.relatedCode);
      if directive.Err? { return Err(directive.error); }
      current := current.(business := CopyFrom(directive.value.row, input));
      ghost var start, n := store.View(), store.writes;
      var e := security.Updated(key, expected, current, caller);
      if e.Some? { return Err(e.value); }
      SavedRowIsFound(start, store.View(), [UpdateBlock(key, expected, current, caller)], store.faults, n);
      found := store.Get(key);
      r := Ok(found.value);
    }

    /** The linked rows of a confirmation that leaves `pending` for `to`. */
    method FindLinked(current: Row, to: Status) returns (r: Result<Option<Linked>>)
      requires store.Idle()
      ensures LinkedAnswer(store.View(), current, to, r)
    {
      if current.status != Pending { return Ok(None); }
      var directive := RequireExecutingDirective(current.business.relatedCode);
      if directive.Err? { return Err(directive.error); }
      var gate := store.GetByCode(GateUnit, directive.value.row.business.relatedCode);
      if gate.None? { return Err(NotFound); }
      var directiveTarget, gateTarget := Aborted, Locked;
      if to == Confirmed {
        directiveTarget, gateTarget := Completed, directive.value.row.gateState;
      }
      if gate.value.row.status != gateTarget && !CanTransition(GATE_TRANSITIONS, gate.value.row.status, gateTarget) {
        return Err(InvalidTransition);
      }
      r := Ok(Some(Linked(directive.value, directiveTarget, gate.value, gateTarget)));
    }

    /** The checks of a confirmation transition, in order; nothing is written yet. */
    method Check(req: Request, current: Row, caller: Caller) returns (r: Result<(Status, Option<Linked>)>)
      requires Ready() && req.Transition? && req.key.kind == ExecutionConfirmation
      requires Records.Get(store.View(), req.key) == Some(current)
      ensures forall id :: Plan(req, caller, id, ReadAll(store.View(), req)) ==
                match r
                case Err(e) => Err(e)
                case Ok((to, linked)) => Ok(WithOutcome(ConfirmationBlock(req, caller, current, to), linked, caller,
                    req.reason))
    {
      ghost var db := store.View();
      var parsed := Parse(TrimSpace(req.target));
      forall id { TransitionRefused(db, req, caller, id); }
      if parsed.None? || !CanTransition(CONFIRMATION_TRANSITIONS, current.status, parsed.value) {
        return Err(InvalidTransition);
      }
      var linked := FindLinked(current, parsed.value);
      forall id { TransitionPlan(db, req, caller, id, parsed.value, linked); }
      if linked.Err? { return Err(linked.error); }
      r := Ok((parsed.value, linked.value));
    }

    /** The linked directive and, if it is not there yet, the linked gate move. */
    method MoveOutcome(l: Linked, caller: Caller, reason: string) returns (e: Option<Error>)
      requires security.store == store && store.Valid()
      modifies store`rows, store`audits, store`writes
      ensures store.Valid()
      ensures var steps := OutcomeOf(l, caller, reason);
              && Done(old(store.View()), store.View(), steps, |steps|, store.faults, old(store.writes), e)
              && (e.None? ==> store.writes == old(store.writes) + |steps|)
    {
      ghost var start, n, steps := store.View(), store.writes, OutcomeOf(l, caller, reason);
      ghost var linked := StepsOf(LinkedBlock(l.directive, l.directiveTo, "execution_outcome", caller, reason));
      ghost var k := |linked|;
      NothingDone(start, steps, store.faults, n);
      assert steps[0..k] == linked;
      assert l.gate.row.status != l.gateTo ==>
        steps[k..|steps|] == StepsOf(LinkedBlock(l.gate, l.gateTo, "execution_outcome", caller, reason));
      hide StepsOf, OutcomeOf, LinkedBlock, Perform, Done, Concluded, Database.Valid, Database.View;
      e := security.MoveLinked(l.directive, l.directiveTo, "execution_outcome", caller, reason);
      AdvanceDone(start, start, store.View(), steps, 0, k, store.faults, n, e);
      if e.Some? || l.gate.row.status == l.gateTo { return; }
      ghost var mid := store.View();
      e := security.MoveLinked(l.gate, l.gateTo, "execution_outcome", caller, reason);
      AdvanceDone(start, mid, store.View(), steps, k, |steps|, store.faults, n, e);
    }

    /** The body of the transaction. */
    method TransitionThenMove(key: Key, expected: nat, current: Row, before: Status, linked: Option<Linked>,
        caller: Caller, reason: string)
      returns (e: Option<Error>)
      requires security.store == store && store.Valid()
      modifies store`rows, store`audits, store`writes
      ensures store.Valid()
      ensures var steps := Steps(WithOutcome(SaveBlock(key, expected, current, caller, "transition", before, reason),
          linked, caller, reason));
              && Done(old(store.View()), store.View(), steps, |steps|, store.faults, old(store.writes), e)
              && (e.None? ==> store.writes == old(store.writes) + |steps|)
    {
      ghost var start, n := store.View(), store.writes;
      ghost var own := SaveBlock(key, expected, current, caller, "transition", before, reason);
      ghost var steps := Steps(WithOutcome(own, linked, caller, reason));
      ghost var k := |StepsOf(own)|;
      OneBlockSteps(own);
      if linked.Some? { OutcomeSteps(own, linked.value, caller, reason); }
      NothingDone(start, steps, store.faults, n);
      assert steps[0..k] == StepsOf(own);
      assert linked.Some? ==> steps[k..|steps|] == OutcomeOf(linked.value, caller, reason);
      assert linked.None? ==> k == |steps|;
      hide Steps, StepsOf, WithOutcome, OutcomeOf, SaveBlock, Perform, Done, Concluded, Database.Valid, Database.View;
      e := security.UpdateThenAudit(key, expected, current, caller, "transition", before, reason);
      AdvanceDone(start, start, store.View(), steps, 0, k, store.faults, n, e);
      if e.Some? || linked.None? { return; }
      ghost var mid := store.View();
      e := MoveOutcome(linked.value, caller, reason);
      AdvanceDone(start, mid, store.View(), steps, k, |steps|, store.faults, n, e);
    }

    /** The transaction of a confirmation transition. */
    method Commit(key: Key, expected: nat, current: Row, before: Status, linked: Option<Linked>, caller: Caller,
        reason: string)
      returns (e: Option<Error>)
      requires Ready()
      modifies store
      ensures Ready()
      ensures var own := SaveBlock(key, expected, current, caller, "transition", before, reason);
              Concluded(old(store.View()), store.View(),
                      Transact(old(store.View()), Steps(WithOutcome(own, linked, caller, reason)), store.faults,
                          old(store.writes)), e)
    {
      ghost var start, n := store.View(), store.writes;
      ghost var own := SaveBlock(key, expected, current, caller, "transition", before, reason);
      ghost var steps := Steps(WithOutcome(own, linked, caller, reason));
      hide Steps, Transact, Done, Ended, Concluded, WithOutcome, SaveBlock, Database.Valid, Database.View;
      store.Begin();
      e := TransitionThenMove(key, expected, current, before, linked, caller, reason);
      ghost var inside, d, m := store.View(), e, store.writes;
      e := store.Finish(e);
      Conclude(false, start, inside, store.View(), steps, store.faults, n, m, d, e);
    }

    /** One receipt moves its confirmation, its directive and its gate, and writes an
        audit entry for each of them, in one transaction. */
    method Transition(id: nat, expected: nat, target: string, reason: string, caller: Caller) returns (r: Result<Row>)
      requires Ready()
      modifies store
      ensures Ready()
      ensures Handled(old(store.View()), store.View(), Request.Transition(Key(ExecutionConfirmation, id), expected,
          target, reason),
                      caller, old(store.nextId), store.faults, old(store.writes), ErrorOf(r))
      ensures r.Ok? ==> Records.Get(store.View(), Key(ExecutionConfirmation, id)) == Some(r.value)
    {
      var key := Key(ExecutionConfirmation, id);
      var found := store.Get(key);
      ghost var start, n, first := store.View(), store.writes, store.nextId;
      var req := Request.Transition(key, expected, target, reason);
      MissingRowRefused(start, req, caller, first);
      hide Plan, ReadAll, Steps, Transact, WithOutcome, SaveBlock, ConfirmationBlock, Database.View;
      if found.None? { return Err(NotFound); }
      var current := found.value;
      var checked := Check(req, current, caller);
      if checked.Err? { return Err(checked.error); }
      var (to, linked) := checked.value;
      var before := current.status;
      current := current.(status := to);
      if to == Confirmed { current := current.(confirmedBy := caller.actor); }
      current := current.(version := expected + 1);
      ghost var own := SaveBlock(key, expected, current, caller, "transition", before, reason);
      OwnBlockIs(req, caller, found.value, to, current);
      OwnIsFirst(own, linked, caller, reason);
      var e := Commit(key, expected, current, before, linked, caller, reason);
      if e.Some? { return Err(e.value); }
      FirstRowIsFound(start, store.View(), req, caller, first, WithOutcome(own, linked, caller, reason),
          store.faults, n);
      found := store.Get(key);
      r := Ok(found.value);
    }

    method Delete(id: nat, caller: Caller) returns (e: Option<Error>)
      requires Ready()
      modifies store
      ensures Ready()
      ensures Handled(old(store.View()), store.View(), Request.Delete(Key(ExecutionConfirmation, id)), caller,
                      old(store.nextId), store.faults, old(store.writes), e)
    {
      var found := store.Get(Key(ExecutionConfirmation, id));
      if found.None? { return Some(NotFound); }
      if found.value.status != Pending { return Some(ImmutableState); }
      e := security.Deleted(Key(ExecutionConfirmation, id), found.value, caller);
    }
  }
}
