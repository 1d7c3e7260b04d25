/** What every directive handler does with every request, in terms of the stored columns. */
module DirectiveRequirements {
  import opened Outcomes
  import opened Text
  import opened Statuses
  import opened Records
  import opened Transactions
  import opened Handlers
  import opened Versions
  import opened Lifecycle
  import opened Validity
  import opened Reachability
  import opened Workflow
  import opened Requirements

  // ------------------------------------------------------------------ moving a directive

  function Moves(d: Key, caller: Caller, before: Status, after: Status, reason: string): Audit {
    Audit(d, "transition", caller.actor, caller.requestId, At(before), At(after), reason)
  }

  function Signature(d: Key, stage: Stage, caller: Caller, before: Status, after: Status, reason: string): Approval {
    Approval(d.id, stage, caller.actor, caller.role, caller.requestId, TrimSpace(reason), before, after)
  }

  lemma DirectiveWays(from: Status, to: Status)
    ensures CanTransition(DIRECTIVE_TRANSITIONS, from, to) && to != Completed <==>
            || (from == Draft && to == Pending)
            || (from == Pending && to == Approved) || (from == Approved && to == Executing)
            || (from in {Pending, Approved, Executing} && to == Aborted)
  {
  }

  lemma DirectiveRoles(role: Role)
    ensures DirectiveRoleAllowed(Pending, role) <==> role in {Operator, Admin}
    ensures DirectiveRoleAllowed(Approved, role) <==> role in {Reviewer, Admin}
    ensures DirectiveRoleAllowed(Executing, role) <==> role in {Operator, Admin}
    ensures DirectiveRoleAllowed(Aborted, role) <==> role in {Operator, Reviewer, Admin}
  {
  }

  /** The ledger has room for the entry of a transition. */
  lemma OwnEntryIsFree(db: Db, req: Request, caller: Caller, to: Status)
    requires Valid(db) && req.Transition? && req.key.kind == OperationDirective && Live(db, req.key)
    requires CanTransition(DIRECTIVE_TRANSITIONS, db.rows[req.key].status, to) && to != Completed
    requires DirectiveRoleAllowed(to, caller.role)
    requires to == Approved ==>
      db.rows[req.key].submittedBy != "" && !EqualFold(db.rows[req.key].submittedBy, caller.actor)
    ensures var b := DirectiveBlock(req, caller, db.rows[req.key], to);
            b.approval.Some? ==> !StageTaken(db.approvals, b.approval.value)
  {
    hide Valid, Legal, Ledgers, TrimSpace, EqualFold, StageTaken;
    ValidIsUnique(db);
    var b := DirectiveBlock(req, caller, db.rows[req.key], to);
    RowIsShaped(db, req.key);
    OwnDirectiveBlockLegal(req, caller, db.rows[req.key], to);
    if b.approval.Some? { StageNeverTaken(db, b); }
  }

  /** The own block of a transition, alone. */
  lemma OwnBlockMeets(db: Db, req: Request, caller: Caller, to: Status)
    requires Valid(db) && req.Transition? && req.key.kind == OperationDirective && Live(db, req.key)
    requires CanTransition(DIRECTIVE_TRANSITIONS, db.rows[req.key].status, to) && to != Completed
    requires DirectiveRoleAllowed(to, caller.role)
    requires to == Approved ==>
      db.rows[req.key].submittedBy != "" && !EqualFold(db.rows[req.key].submittedBy, caller.actor)
    ensures var b := DirectiveBlock(req, caller, db.rows[req.key], to);
            var r := ApplyBlock(db, b);
            if db.rows[req.key].version == req.expected then
              r == Ok(Db(db.rows[req.key := b.write.row], db.approvals + Entered(b), db.audits + [b.audit]))
            else r == Err(VersionConflict)
  {
    hide Valid, EqualFold, TrimSpace, CanTransition, DirectiveRoleAllowed, StageTaken;
    var b := DirectiveBlock(req, caller, db.rows[req.key], to);
    OwnEntryIsFree(db, req, caller, to);
    if b.approval.None? { assert db.approvals + Entered(b) == db.approvals; }
    assert b.write.row.(code := db.rows[req.key].code, deleted := false) == b.write.row;
  }

  /** What decides a transition, once its target is known. */
  lemma MoveDecides(db: Db, req: Request, caller: Caller, id: nat, to: Status)
    requires req.Transition? && req.key.kind == OperationDirective && Live(db, req.key)
    requires Parse(TrimSpace(req.target)) == Some(to)
    ensures var r := Atomic(db, req, caller, id);
            var row := db.rows[req.key];
            var gate := GetByCode(db, GateUnit, row.business.relatedCode);
            var alone := row.submittedBy == "" || EqualFold(row.submittedBy, caller.actor);
            if !(CanTransition(DIRECTIVE_TRANSITIONS, row.status, to) && to != Completed) then
              r == Err(InvalidTransition)
            else if !DirectiveRoleAllowed(to, caller.role) then r == Err(Forbidden)
            else if to == Executing || (row.status == Executing && to == Aborted) then
              && (gate.None? ==> r == Err(NotFound))
              && (gate.Some? && to == Executing && gate.value.row.status == Locked ==> r == Err(InvalidInput))
            else if to == Approved && alone then r == Err(TwoPersonRequired)
            else r == ApplyBlock(db, DirectiveBlock(req, caller, row, to))
  {
    hide TrimSpace, Parse, EqualFold, CanTransition, DirectiveRoleAllowed, DirectiveBlock, LinkedBlock;
    var row := db.rows[req.key];
    if NeedsGate(row.status, to) { GateReadBy(db, req); }
    if CanTransition(DIRECTIVE_TRANSITIONS, row.status, to) && to != Completed && DirectiveRoleAllowed(to, caller.role)
       && !NeedsGate(row.status, to)
       && !(to == Approved && (row.submittedBy == "" || EqualFold(row.submittedBy, caller.actor))) {
      AtomicIsBlock(db, req, caller, id, DirectiveBlock(req, caller, row, to));
    }
  }

  /** Submitting: a draft, by an operator or an administrator, under the stored version. */
  lemma SubmitMeets(db: Db, d: Key, expected: nat, target: string, reason: string, caller: Caller, id: nat)
    requires Valid(db) && d.kind == OperationDirective && TrimSpace(target) == "pending"
    ensures var r := Atomic(db, Transition(d, expected, target, reason), caller, id);
            && (!Live(db, d) ==> r == Err(NotFound))
            && (Live(db, d) ==>
                  var row := db.rows[d];
                  && (row.status != Draft ==> r == Err(InvalidTransition))
                  && (row.status == Draft && caller.role !in {Operator, Admin} ==> r == Err(Forbidden))
                  && (row.status == Draft && caller.role in {Operator, Admin} ==>
                        if row.version != expected then r == Err(VersionConflict)
                        else
                          r == Ok(Db(db.rows[d := row.(status := Pending, submittedBy := caller.actor,
                              version := expected + 1)],
                                     db.approvals + [Signature(d, StageSubmitted, caller, Draft, Pending, reason)],
                                     db.audits + [Moves(d, caller, Draft, Pending, reason)]))))
  {
    var req := Transition(d, expected, target, reason);
    TextNames(TrimSpace(target));
    hide Valid, Parse, Atomic, TrimSpace, CanTransition, DirectiveRoleAllowed, EqualFold;
    MissingIsNotFound(db, req, caller, id);
    if Live(db, d) {
      MoveDecides(db, req, caller, id, Pending);
      DirectiveWays(db.rows[d].status, Pending);
      DirectiveRoles(caller.role);
      if db.rows[d].status == Draft && caller.role in {Operator, Admin} { OwnBlockMeets(db, req, caller, Pending); }
    }
  }

  /** Approving: a pending directive, by a reviewer or an administrator other than its
      submitter up to case, under the stored version. */
  lemma ApproveMeets(db: Db, d: Key, expected: nat, target: string, reason: string, caller: Caller, id: nat)
    requires Valid(db) && d.kind == OperationDirective && TrimSpace(target) == "approved"
    ensures var r := Atomic(db, Transition(d, expected, target, reason), caller, id);
            && (!Live(db, d) ==> r == Err(NotFound))
            && (Live(db, d) ==>
                  var row := db.rows[d];
                  var second := row.submittedBy != "" && !EqualFold(row.submittedBy, caller.actor);
                  && (row.status != Pending ==> r == Err(InvalidTransition))
                  && (row.status == Pending && caller.role !in {Reviewer, Admin} ==> r == Err(Forbidden))
                  && (row.status == Pending && caller.role in {Reviewer, Admin} && !second ==>
                      r == Err(TwoPersonRequired))
                  && (row.status == Pending && caller.role in {Reviewer, Admin} && second ==>
                        if row.version != expected then r == Err(VersionConflict)
                        else
                          r == Ok(Db(db.rows[d := row.(status := Approved, approvedBy := caller.actor,
                              version := expected + 1)],
                                     db.approvals + [Signature(d, StageApproved, caller, Pending, Approved, reason)],
                                     db.audits + [Moves(d, caller, Pending, Approved, reason)]))))
  {
    var req := Transition(d, expected, target, reason);
    TextNames(TrimSpace(target));
    hide Valid, Parse, Atomic, TrimSpace, CanTransition, DirectiveRoleAllowed, EqualFold;
    MissingIsNotFound(db, req, caller, id);
    if Live(db, d) {
      MoveDecides(db, req, caller, id, Approved);
      DirectiveWays(db.rows[d].status, Approved);
      DirectiveRoles(caller.role);
      if db.rows[d].status == Pending && caller.role in {Reviewer, Admin}
         && db.rows[d].submittedBy != "" && !EqualFold(db.rows[d].submittedBy, caller.actor) {
        OwnBlockMeets(db, req, caller, Approved);
      }
    }
  }

  /** The directive with its own entry, and the gate with one if it is moved. */
  function Started(db: Db, d: Key, row: Row, own: Audit, g: Key, gateTo: Status, moved: bool, caller: Caller,
      reason: string): Db
    requires g in db.rows
  {
    if moved then
      Db(db.rows[d := row][g := db.rows[g].(status := gateTo, version := db.rows[g].version + 1)], db.approvals,
         db.audits + [own, Entry(g, "directive_execution", caller, At(db.rows[g].status), At(gateTo), reason)])
    else
      Db(db.rows[d := row], db.approvals, db.audits + [own])
  }

  /** Starting: an approved directive, by an operator or an administrator, whose gate is
      live and not locked, under the stored version. The gate starts moving, unless it
      does already or stands at the target. */
  lemma StartMeets(db: Db, d: Key, expected: nat, target: string, reason: string, caller: Caller, id: nat,
      gate: Option<Key>)
    requires Valid(db) && d.kind == OperationDirective && TrimSpace(target) == "executing"
    requires Live(db, d) ==> Search(db, GateUnit, db.rows[d].business.relatedCode, gate)
    ensures var r := Atomic(db, Transition(d, expected, target, reason), caller, id);
            && (!Live(db, d) ==> r == Err(NotFound))
            && (Live(db, d) ==>
                  var row := db.rows[d];
                  && (row.status != Approved ==> r == Err(InvalidTransition))
                  && (row.status == Approved && caller.role !in {Operator, Admin} ==> r == Err(Forbidden))
                  && (row.status == Approved && caller.role in {Operator, Admin} ==>
                        match gate
                        case None => r == Err(NotFound)
                        case Some(g) =>
                          var status := db.rows[g].status;
                          if status == Locked then r == Err(InvalidInput)
                          else if row.version != expected then r == Err(VersionConflict)
                          else
                            r == Ok(Started(db, d, row.(status := Executing, version := expected + 1),
                                            Moves(d, caller, Approved, Executing, reason),
                                            g, Moving, status != row.gateState && status != Moving, caller, reason))))
  {
    var req := Transition(d, expected, target, reason);
    TextNames(TrimSpace(target));
    hide Valid, Parse, Atomic, TrimSpace, CanTransition, DirectiveRoleAllowed, EqualFold, Unique, AllShaped,
        DirectiveBlock;
    MissingIsNotFound(db, req, caller, id);
    ValidIsUnique(db);
    if Live(db, d) {
      MoveDecides(db, req, caller, id, Executing);
      DirectiveWays(db.rows[d].status, Executing);
      DirectiveRoles(caller.role);
      SearchFinds(db, GateUnit, db.rows[d].business.relatedCode, gate);
      if db.rows[d].status == Approved && caller.role in {Operator, Admin} && gate.Some?
         && db.rows[gate.value].status != Locked {
        StartIsPlanned(db, req, caller, id, gate.value);
      }
    }
  }

  lemma StartIsPlanned(db: Db, req: Request, caller: Caller, id: nat, g: Key)
    requires Valid(db) && req.Transition? && req.key.kind == OperationDirective && Live(db, req.key)
    requires Parse(TrimSpace(req.target)) == Some(Executing) && db.rows[req.key].status == Approved
    requires caller.role in {Operator, Admin}
    requires Live(db, g) && g.kind == GateUnit && db.rows[g].status != Locked
    requires GetByCode(db, GateUnit, db.rows[req.key].business.relatedCode) == Some(Found(g, db.rows[g]))
    ensures var row := db.rows[req.key];
            Atomic(db, req, caller, id) ==
            if row.version != req.expected then Err(VersionConflict)
            else Ok(Started(db, req.key, row.(status := Executing, version := req.expected + 1),
                            Moves(req.key, caller, row.status, Executing, req.reason), g, Moving,
                            db.rows[g].status != row.gateState && db.rows[g].status != Moving, caller, req.reason))
  {
    hide Valid, Parse, Atomic, TrimSpace, CanTransition, DirectiveRoleAllowed, Plan, AllShaped;
    ValidIsUnique(db);
    RowIsShaped(db, g);
    StartNeedsGate(db, req);
    DirectiveWays(Approved, Executing);
    DirectiveRoles(caller.role);
    StartPlan(db, req, caller, id, g);
    PlannedMoveMeets(db, req, caller, id, Executing, g, Moving,
                     db.rows[g].status != db.rows[req.key].gateState && db.rows[g].status != Moving);
  }

  lemma StartNeedsGate(db: Db, req: Request)
    requires req.Transition? && req.key.kind == OperationDirective && Live(db, req.key)
    requires Parse(TrimSpace(req.target)) == Some(Executing) ||
             (Parse(TrimSpace(req.target)) == Some(Aborted) && db.rows[req.key].status == Executing)
    ensures ReadAll(db, req).primary == Some(db.rows[req.key])
    ensures ReadAll(db, req).gate == GetByCode(db, GateUnit, db.rows[req.key].business.relatedCode)
  {
    GateReadBy(db, req);
  }

  lemma AbortIsPlanned(db: Db, req: Request, caller: Caller, id: nat, g: Key)
    requires Valid(db) && req.Transition? && req.key.kind == OperationDirective && Live(db, req.key)
    requires Parse(TrimSpace(req.target)) == Some(Aborted) && db.rows[req.key].status == Executing
    requires caller.role in {Operator, Reviewer, Admin} && Live(db, g) && g.kind == GateUnit
    requires GetByCode(db, GateUnit, db.rows[req.key].business.relatedCode) == Some(Found(g, db.rows[g]))
    ensures var row := db.rows[req.key];
            Atomic(db, req, caller, id) ==
            if row.version != req.expected then Err(VersionConflict)
            else Ok(Started(db, req.key, row.(status := Aborted, version := req.expected + 1),
                            Moves(req.key, caller, row.status, Aborted, req.reason), g, Locked,
                            db.rows[g].status != Locked, caller, req.reason))
  {
    hide Valid, Parse, Atomic, TrimSpace, CanTransition, DirectiveRoleAllowed, AllShaped;
    ValidIsUnique(db);
    RowIsShaped(db, g);
    StartNeedsGate(db, req);
    DirectiveWays(Executing, Aborted);
    DirectiveRoles(caller.role);
    AbortCases(req, caller, db.rows[req.key], ReadAll(db, req));
    PlannedMoveMeets(db, req, caller, id, Aborted, g, Locked, db.rows[g].status != Locked);
  }

  lemma GateReadBy(db: Db, req: Request)
    requires req.Transition? && req.key.kind == OperationDirective && Live(db, req.key)
    requires MovesGate(req, db.rows[req.key])
    ensures ReadAll(db, req).primary == Some(db.rows[req.key])
    ensures ReadAll(db, req).gate == GetByCode(db, GateUnit, db.rows[req.key].business.relatedCode)
  {
  }

  lemma StartPlan(db: Db, req: Request, caller: Caller, id: nat, g: Key)
    requires req.Transition? && req.key.kind == OperationDirective && Live(db, req.key) && g in db.rows
    requires Parse(TrimSpace(req.target)) == Some(Executing) && db.rows[req.key].status == Approved
    requires caller.role in {Operator, Admin} && db.rows[g].status != Locked && StatusOf(GateUnit, db.rows[g].status)
    requires ReadAll(db, req).primary == Some(db.rows[req.key]) && ReadAll(db, req).gate == Some(Found(g, db.rows[g]))
    ensures var own := DirectiveBlock(req, caller, db.rows[req.key], Executing);
            Plan(req, caller, id, ReadAll(db, req)) ==
            Ok(if db.rows[g].status != db.rows[req.key].gateState && db.rows[g].status != Moving
               then [own, LinkedBlock(Found(g, db.rows[g]), Moving, "directive_execution", caller, req.reason)]
               else [own])
  {
    ExecuteCases(req, caller, db.rows[req.key], ReadAll(db, req));
  }

  /** A planned move of a directive that enters no approval, with its gate if it moves. */
  lemma PlannedMoveMeets(db: Db, req: Request, caller: Caller, id: nat, to: Status, g: Key, gateTo: Status, moved: bool)
    requires Valid(db) && req.Transition? && req.key.kind == OperationDirective && Live(db, req.key)
    requires CanTransition(DIRECTIVE_TRANSITIONS, db.rows[req.key].status, to) && to in {Executing, Aborted}
    requires DirectiveRoleAllowed(to, caller.role) && Live(db, g) && g.kind == GateUnit
    requires Plan(req, caller, id, ReadAll(db, req)) ==
             Ok(if moved
                then [DirectiveBlock(req, caller, db.rows[req.key], to),
                      LinkedBlock(Found(g, db.rows[g]), gateTo, "directive_execution", caller, req.reason)]
                else [DirectiveBlock(req, caller, db.rows[req.key], to)])
    ensures var row := db.rows[req.key];
            Atomic(db, req, caller, id) ==
            if row.version != req.expected then Err(VersionConflict)
            else Ok(Started(db, req.key, row.(status := to, version := req.expected + 1),
                            Moves(req.key, caller, row.status, to, req.reason), g, gateTo, moved, caller, req.reason))
  {
    hide Plan, Valid, ReadAll;
    var own := DirectiveBlock(req, caller, db.rows[req.key], to);
    if moved {
      var linked := LinkedBlock(Found(g, db.rows[g]), gateTo, "directive_execution", caller, req.reason);
      AtomicIs(db, req, caller, id, [own, linked]);
      ValidIsUnique(db);
      PairStores(db, own, linked);
    } else {
      AtomicIsBlock(db, req, caller, id, own);
      OwnBlockMeets(db, req, caller, to);
    }
  }

  lemma QuietAbortStores(db: Db, req: Request, caller: Caller)
    requires Valid(db) && req.Transition? && req.key.kind == OperationDirective && Live(db, req.key)
    requires db.rows[req.key].status in {Pending, Approved} && caller.role in {Operator, Reviewer, Admin}
    ensures var row := db.rows[req.key];
            ApplyBlock(db, DirectiveBlock(req, caller, row, Aborted)) ==
            if row.version != req.expected then Err(VersionConflict)
            else Ok(Db(db.rows[req.key := row.(status := Aborted, version := req.expected + 1)], db.approvals,
                       db.audits + [Moves(req.key, caller, row.status, Aborted, req.reason)]))
  {
    hide Valid, CanTransition, DirectiveRoleAllowed, EqualFold, TrimSpace;
    DirectiveWays(db.rows[req.key].status, Aborted);
    DirectiveRoles(caller.role);
    OwnBlockMeets(db, req, caller, Aborted);
    var b := DirectiveBlock(req, caller, db.rows[req.key], Aborted);
    assert db.approvals + Entered(b) == db.approvals;
  }

  /** Aborting: a pending, approved or executing directive, by an operator, a reviewer or
      an administrator, under the stored version; an executing one also needs a live
      gate, which is locked. */
  lemma AbortMeets(db: Db, d: Key, expected: nat, target: string, reason: string, caller: Caller, id: nat,
      gate: Option<Key>)
    requires Valid(db) && d.kind == OperationDirective && TrimSpace(target) == "aborted"
    requires Live(db, d) ==> Search(db, GateUnit, db.rows[d].business.relatedCode, gate)
    ensures var r := Atomic(db, Transition(d, expected, target, reason), caller, id);
            && (!Live(db, d) ==> r == Err(NotFound))
            && (Live(db, d) ==>
                  var row := db.rows[d];
                  var ended := row.(status := Aborted, version := expected + 1);
                  var own := Moves(d, caller, row.status, Aborted, reason);
                  && (row.status !in {Pending, Approved, Executing} ==> r == Err(InvalidTransition))
                  && (row.status in {Pending, Approved, Executing} && caller.role !in {Operator, Reviewer, Admin} ==>
                        r == Err(Forbidden))
                  && (row.status in {Pending, Approved} && caller.role in {Operator, Reviewer, Admin} ==>
                        if row.version != expected then r == Err(VersionConflict)
                        else r == Ok(Db(db.rows[d := ended], db.approvals, db.audits + [own])))
                  && (row.status == Executing && caller.role in {Operator, Reviewer, Admin} ==>
                        match gate
                        case None => r == Err(NotFound)
                        case Some(g) =>
                          if row.version != expected then r == Err(VersionConflict)
                          else r == Ok(Started(db, d, ended, own, g, Locked, db.rows[g].status != Locked, caller,
                              reason))))
  {
    var req := Transition(d, expected, target, reason);
    TextNames(TrimSpace(target));
    hide Valid, Parse, Atomic, TrimSpace, CanTransition, DirectiveRoleAllowed, EqualFold, Unique, AllShaped,
        DirectiveBlock;
    MissingIsNotFound(db, req, caller, id);
    ValidIsUnique(db);
    if Live(db, d) {
      MoveDecides(db, req, caller, id, Aborted);
      DirectiveWays(db.rows[d].status, Aborted);
      DirectiveRoles(caller.role);
      SearchFinds(db, GateUnit, db.rows[d].business.relatedCode, gate);
      if caller.role in {Operator, Reviewer, Admin} {
        if db.rows[d].status in {Pending, Approved} {
          QuietAbortStores(db, req, caller);
        } else if db.rows[d].status == Executing && gate.Some? {
          AbortIsPlanned(db, req, caller, id, gate.value);
        }
      }
    }
  }

  /** No other text moves a directive; completion is for confirmations. */
  lemma OtherTargetRefused(db: Db, d: Key, expected: nat, target: string, reason: string, caller: Caller, id: nat)
    requires d.kind == OperationDirective && Live(db, d)
    requires TrimSpace(target) != "pending" && TrimSpace(target) != "approved"
    requires TrimSpace(target) != "executing" && TrimSpace(target) != "aborted"
    ensures Atomic(db, Transition(d, expected, target, reason), caller, id) == Err(InvalidTransition)
  {
    TextNames(TrimSpace(target));
    hide TrimSpace;
    var to := Parse(TrimSpace(target));
    if to.Some? && CanTransition(DIRECTIVE_TRANSITIONS, db.rows[d].status, to.value) {
      EdgeDescends(OperationDirective, db.rows[d].status, to.value);
    }
  }

  // ---------------------------------------------------------------- editing a directive

  /** The gate that an edit names is of its facility and not locked. */
  predicate Suits(db: Db, input: Business, g: Key)
    requires g in db.rows
  {
    EqualFold(TrimSpace(input.facility), db.rows[g].business.facility) && db.rows[g].status != Locked
  }

  /** Creating a directive: all names filled in, a live unlocked gate of the same
      facility, and a new code. It starts as a draft at version 1; its gate target is
      `closed` unless another is asked for. */
  lemma CreateMeets(db: Db, code: string, input: Business, gateState: Option<Status>, caller: Caller, id: nat,
      gate: Option<Key>)
    requires Unique(db) && Search(db, GateUnit, input.relatedCode, gate)
    ensures var r := Atomic(db, Create(OperationDirective, code, input, gateState, None), caller, id);
            var k := Key(OperationDirective, id);
            var row := Row(
              ToUpper(TrimSpace(code)), Draft, 1, false,
              Columns(input, TrimSpace(input.facility), TrimSpace(input.category), input.riskLevel,
                      ToUpper(TrimSpace(input.relatedCode))),
              if gateState.Some? then gateState.value else Closed, "", "", "");
            if !Filled(code, input) then r == Err(InvalidInput)
            else
              match gate
              case None => r == Err(NotFound)
              case Some(g) =>
                if !Suits(db, input, g) then r == Err(InvalidInput)
                else if k in db.rows || !CodeFree(db, OperationDirective, code) then r == Err(DuplicateKey)
                else r.Ok? && Stores(db, r.value, k, row, Entry(k, "create", caller, Absent, At(Draft), "created 操作指令"))
  {
    Texts();
    var req := Create(OperationDirective, code, input, gateState, None);
    SearchFinds(db, GateUnit, input.relatedCode, gate);
    assert ReadAll(db, req).gate == GetByCode(db, GateUnit, input.relatedCode);
    if Filled(code, input) && gate.Some? && Suits(db, input, gate.value) {
      var row := NewRow(OperationDirective, code, Tidy(input), if gateState.Some? then gateState.value else Closed);
      var b := CreateBlock(Key(OperationDirective, id), row, caller);
      AtomicIsBlock(db, req, caller, id, b);
      InsertStores(db, b);
    }
  }

  /** Editing a directive: a draft, all names filled in, a live unlocked gate of the same
      facility, under the stored version. Status and code stay, and so does the gate
      target unless another is asked for. */
  lemma UpdateMeets(db: Db, d: Key, expected: nat, input: Business, gateState: Option<Status>, caller: Caller, id: nat,
      gate: Option<Key>)
    requires Unique(db) && d.kind == OperationDirective && Search(db, GateUnit, input.relatedCode, gate)
    ensures var r := Atomic(db, Update(d, expected, input, gateState, None), caller, id);
            if !Live(db, d) then r == Err(NotFound)
            else
              var current := db.rows[d];
              if current.status != Draft then r == Err(ImmutableState)
              else if !Filled(current.code, input) then r == Err(InvalidInput)
              else
                match gate
                case None => r == Err(NotFound)
                case Some(g) =>
                  if !Suits(db, input, g) then r == Err(InvalidInput)
                  else if current.version != expected then r == Err(VersionConflict)
                  else
                    && r.Ok?
                    && Stores(db, r.value, d,
                              current.(version := expected + 1,
                                       business := Columns(input, TrimSpace(input.facility), TrimSpace(input.category),
                                                           input.riskLevel, ToUpper(TrimSpace(input.relatedCode))),
                                       gateState := if gateState.Some? then gateState.value else current.gateState),
                              Entry(d, "update", caller, At(Draft), At(Draft), "updated business fields"))
  {
    var req := Update(d, expected, input, gateState, None);
    SearchFinds(db, GateUnit, input.relatedCode, gate);
    if Live(db, d) {
      assert ReadAll(db, req).gate == GetByCode(db, GateUnit, input.relatedCode);
      var current := db.rows[d];
      if current.status == Draft && Filled(current.code, input) && gate.Some? && Suits(db, input, gate.value) {
        var row := current.(business := Tidy(input),
                            gateState := if gateState.Some? then gateState.value else current.gateState);
        var b := UpdateBlock(d, expected, row, caller);
        AtomicIsBlock(db, req, caller, id, b);
        SaveStores(db, b);
      }
    }
  }
}
