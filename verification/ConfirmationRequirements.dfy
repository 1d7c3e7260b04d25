/** What every confirmation handler does with every request, in terms of the stored
    columns. */
module ConfirmationRequirements {
  import opened Outcomes
  import opened Text
  import opened Statuses
  import opened Records
  import opened Transactions
  import opened Handlers
  import opened Lifecycle
  import opened Validity
  import opened Reachability
  import opened Workflow
  import opened Requirements
  import opened GateRequirements

  // -------------------------------------------------------------- ending a confirmation

  lemma ConfirmationWays(from: Status, to: Status)
    ensures CanTransition(CONFIRMATION_TRANSITIONS, from, to) <==>
            (from == Pending && to == Confirmed) || (from == Pending && to == Failed)
                || (from == Failed && to == Cancelled)
  {
  }

  /** The state after a receipt: its confirmation, its directive, and its gate if that is
      not yet where it must go, each with an entry. */
  function Ended(db: Db, c: Key, row: Row, d: Key, directiveTo: Status, g: Key, gateTo: Status, caller: Caller,
      reason: string): Db
    requires c in db.rows && d in db.rows && g in db.rows
  {
    var directive, gate := db.rows[d], db.rows[g];
    var two := db.rows[c := row][d := directive.(status := directiveTo, version := directive.version + 1)];
    var own := Entry(c, "transition", caller, At(Pending), At(row.status), reason);
    var linked := Entry(d, "execution_outcome", caller, At(Executing), At(directiveTo), reason);
    if gate.status == gateTo then Db(two, db.approvals, db.audits + [own, linked])
    else
      Db(two[g := gate.(status := gateTo, version := gate.version + 1)], db.approvals,
         db.audits + [own, linked, Entry(g, "execution_outcome", caller, At(gate.status), At(gateTo), reason)])
  }

  /** The directive and the gate that confirmation `c` leads to. */
  ghost predicate Leads(db: Db, c: Key, directive: Option<Key>, gate: Option<Key>) {
    Live(db, c) ==>
      && (directive.Some? ==> directive.value in db.rows)
      && (directive.Some? && gate.Some? ==> gate.value in db.rows)
      && Search(db, OperationDirective, db.rows[c].business.relatedCode, directive)
      && (directive.Some? ==> Search(db, GateUnit, db.rows[directive.value].business.relatedCode, gate))
  }

  /** What decides a transition, once its target is known. */
  lemma MoveDecides(db: Db, req: Request, caller: Caller, id: nat, to: Status)
    requires req.Transition? && req.key.kind == ExecutionConfirmation && Live(db, req.key)
    requires Parse(TrimSpace(req.target)) == Some(to)
    ensures var r := Atomic(db, req, caller, id);
            var row := db.rows[req.key];
            if !CanTransition(CONFIRMATION_TRANSITIONS, row.status, to) then r == Err(InvalidTransition)
            else if row.status != Pending then r == ApplyBlock(db, ConfirmationBlock(req, caller, row, to))
            else
              match GetByCode(db, OperationDirective, row.business.relatedCode)
              case None => r == Err(NotFound)
              case Some(directive) =>
                if directive.row.status != Executing then r == Err(InvalidInput)
                else
                  match GetByCode(db, GateUnit, directive.row.business.relatedCode)
                  case None => r == Err(NotFound)
                  case Some(gate) => r == Received(db, req, caller, row, to, directive, gate)
  {
    hide TrimSpace, Parse, CanTransition, ConfirmationBlock, LinkedBlock, ApplyAll;
    var row := db.rows[req.key];
    var read := ReadAll(db, req);
    assert read.primary == Some(row);
    if row.status == Pending {
      assert read.directive == GetByCode(db, OperationDirective, row.business.relatedCode);
    } else if CanTransition(CONFIRMATION_TRANSITIONS, row.status, to) {
      AtomicIsBlock(db, req, caller, id, ConfirmationBlock(req, caller, row, to));
    }
  }

  /** A receipt whose linked rows were found. */
  ghost function Received(db: Db, req: Request, caller: Caller, row: Row, to: Status, directive: Found,
      gate: Found): Result<Db>
    requires req.Transition?
  {
    var directiveTo := if to == Confirmed then Completed else Aborted;
    var gateTo := if to == Confirmed then directive.row.gateState else Locked;
    var two := [ConfirmationBlock(req, caller, row, to),
                LinkedBlock(directive, directiveTo, "execution_outcome", caller, req.reason)];
    if gate.row.status == gateTo then ApplyAll(db, two)
    else if !CanTransition(GATE_TRANSITIONS, gate.row.status, gateTo) then Err(InvalidTransition)
    else ApplyAll(db, two + [LinkedBlock(gate, gateTo, "execution_outcome", caller, req.reason)])
  }

  lemma TripleStores(db: Db, own: Block, linked: Block, last: Block)
    requires Unique(db) && own.key.kind == ExecutionConfirmation && linked.key.kind == OperationDirective
    requires own.write.Save? && own.approval.None? && Live(db, own.key)
    requires own.write.row.code == db.rows[own.key].code && !own.write.row.deleted
    requires own.write.row.business.relatedCode == db.rows[own.key].business.relatedCode
    requires linked.write.Save? && linked.approval.None? && Live(db, linked.key)
    requires linked.write.row.code == db.rows[linked.key].code && !linked.write.row.deleted
    requires linked.write.expected == db.rows[linked.key].version
    requires last.key.kind == GateUnit && last.write.Save? && last.approval.None? && Live(db, last.key)
    requires last.write.row.code == db.rows[last.key].code && !last.write.row.deleted
    requires last.write.expected == db.rows[last.key].version
    ensures var r := ApplyAll(db, [own, linked, last]);
            if db.rows[own.key].version == own.write.expected then
              r == Ok(Db(db.rows[own.key := own.write.row][linked.key := linked.write.row][last.key := last.write.row],
                         db.approvals, db.audits + [own.audit, linked.audit, last.audit]))
            else r == Err(VersionConflict)
  {
    SaveStores(db, own);
    if db.rows[own.key].version == own.write.expected {
      var mid := ApplyBlock(db, own).value;
      BlockKeepsUnique(db, own);
      PairStores(mid, linked, last);
      assert [own, linked, last][1..] == [linked, last];
      assert db.audits + [own.audit] + [linked.audit, last.audit] == db.audits + [own.audit, linked.audit, last.audit];
    }
  }

  lemma ReceivedStores(db: Db, req: Request, caller: Caller, to: Status, d: Key, g: Key)
    requires Unique(db) && req.Transition? && req.key.kind == ExecutionConfirmation && Live(db, req.key)
    requires d.kind == OperationDirective && Live(db, d) && g.kind == GateUnit && Live(db, g)
    requires db.rows[req.key].status == Pending && db.rows[d].status == Executing && to in {Confirmed, Failed}
    ensures var row := db.rows[req.key];
            var directiveTo := if to == Confirmed then Completed else Aborted;
            var gateTo := if to == Confirmed then db.rows[d].gateState else Locked;
            var ended := row.(
              status := to, confirmedBy := if to == Confirmed then caller.actor else row.confirmedBy,
              version := req.expected + 1);
            Received(db, req, caller, row, to, Found(d, db.rows[d]), Found(g, db.rows[g])) ==
            if db.rows[g].status != gateTo && !GateWay(db.rows[g].status, gateTo) then Err(InvalidTransition)
            else if row.version != req.expected then Err(VersionConflict)
            else Ok(Ended(db, req.key, ended, d, directiveTo, g, gateTo, caller, req.reason))
  {
    hide CanTransition, Unique, ApplyAll, ApplyBlock;
    var gateTo := if to == Confirmed then db.rows[d].gateState else Locked;
    var directiveTo := if to == Confirmed then Completed else Aborted;
    GateWays(db.rows[g].status, gateTo);
    var own := ConfirmationBlock(req, caller, db.rows[req.key], to);
    var linked := LinkedBlock(Found(d, db.rows[d]), directiveTo, "execution_outcome", caller, req.reason);
    if db.rows[g].status == gateTo {
      PairStores(db, own, linked);
    } else {
      var last := LinkedBlock(Found(g, db.rows[g]), gateTo, "execution_outcome", caller, req.reason);
      assert [own, linked] + [last] == [own, linked, last];
      TripleStores(db, own, linked, last);
    }
  }

  /** Confirming: a pending confirmation whose directive is live and executing and whose
      gate is live and at the directive's target or can be moved there, under the stored
      version. The directive completes and the gate ends at the target. */
  lemma ConfirmMeets(db: Db, c: Key, expected: nat, target: string, reason: string, caller: Caller, id: nat,
      directive: Option<Key>, gate: Option<Key>)
    requires Valid(db) && c.kind == ExecutionConfirmation && TrimSpace(target) == "confirmed"
        && Leads(db, c, directive, gate)
    ensures var r := Atomic(db, Transition(c, expected, target, reason), caller, id);
            if !Live(db, c) then r == Err(NotFound)
            else
              var row := db.rows[c];
              if row.status != Pending then r == Err(InvalidTransition)
              else if directive.None? then r == Err(NotFound)
              else if db.rows[directive.value].status != Executing then r == Err(InvalidInput)
              else if gate.None? then r == Err(NotFound)
              else
                var from, goal := db.rows[gate.value].status, db.rows[directive.value].gateState;
                if from != goal && !GateWay(from, goal) then r == Err(InvalidTransition)
                else if row.version != expected then r == Err(VersionConflict)
                else r == Ok(Ended(db, c, row.(status := Confirmed, confirmedBy := caller.actor,
                    version := expected + 1),
                                   directive.value, Completed, gate.value, goal, caller, reason))
  {
    var req := Transition(c, expected, target, reason);
    TextNames(TrimSpace(target));
    hide Valid, Parse, Atomic, TrimSpace, CanTransition, Unique, AllShaped, Received, Ended, ConfirmationBlock, Search;
    ReceiptMeets(db, req, caller, id, Confirmed, directive, gate);
  }

  /** Failing: a pending confirmation whose directive is live and executing and whose gate
      is live, in whatever status, under the stored version. The directive is aborted
      and the gate locked. */
  lemma FailMeets(db: Db, c: Key, expected: nat, target: string, reason: string, caller: Caller, id: nat,
      directive: Option<Key>, gate: Option<Key>)
    requires Valid(db) && c.kind == ExecutionConfirmation && TrimSpace(target) == "failed"
        && Leads(db, c, directive, gate)
    ensures var r := Atomic(db, Transition(c, expected, target, reason), caller, id);
            if !Live(db, c) then r == Err(NotFound)
            else
              var row := db.rows[c];
              if row.status != Pending then r == Err(InvalidTransition)
              else if directive.None? then r == Err(NotFound)
              else if db.rows[directive.value].status != Executing then r == Err(InvalidInput)
              else if gate.None? then r == Err(NotFound)
              else if row.version != expected then r == Err(VersionConflict)
              else r == Ok(Ended(db, c, row.(status := Failed, version := expected + 1),
                                 directive.value, Aborted, gate.value, Locked, caller, reason))
  {
    var req := Transition(c, expected, target, reason);
    TextNames(TrimSpace(target));
    hide Valid, Parse, Atomic, TrimSpace, CanTransition, Unique, AllShaped, Received, Ended, ConfirmationBlock, Search;
    ReceiptMeets(db, req, caller, id, Failed, directive, gate);
    if Live(db, c) && directive.Some? && gate.Some? { GateCanBeLocked(db, c, directive, gate); }
  }

  lemma GateCanBeLocked(db: Db, c: Key, directive: Option<Key>, gate: Option<Key>)
    requires Valid(db) && Live(db, c) && Leads(db, c, directive, gate) && directive.Some? && gate.Some?
    ensures gate.value in db.rows && (db.rows[gate.value].status == Locked
        || GateWay(db.rows[gate.value].status, Locked))
  {
    hide Valid, AllShaped, Unique, Ledgers, TrimSpace;
    ValidIsUnique(db);
    assert Named(db, GateUnit, db.rows[directive.value].business.relatedCode, gate.value);
    RowIsShaped(db, gate.value);
  }

  /** Both receipts. */
  lemma ReceiptMeets(db: Db, req: Request, caller: Caller, id: nat, to: Status, directive: Option<Key>,
      gate: Option<Key>)
    requires Valid(db) && req.Transition? && req.key.kind == ExecutionConfirmation && to in {Confirmed, Failed}
    requires Parse(TrimSpace(req.target)) == Some(to) && Leads(db, req.key, directive, gate)
    ensures var r := Atomic(db, req, caller, id);
            var c := req.key;
            if !Live(db, c) then r == Err(NotFound)
            else
              var row := db.rows[c];
              if row.status != Pending then r == Err(InvalidTransition)
              else if directive.None? then r == Err(NotFound)
              else if db.rows[directive.value].status != Executing then r == Err(InvalidInput)
              else if gate.None? then r == Err(NotFound)
              else
                var from := db.rows[gate.value].status;
                var goal := if to == Confirmed then db.rows[directive.value].gateState else Locked;
                var ended := row.(
                  status := to, confirmedBy := if to == Confirmed then caller.actor else row.confirmedBy,
                  version := req.expected + 1);
                if from != goal && !GateWay(from, goal) then r == Err(InvalidTransition)
                else if row.version != req.expected then r == Err(VersionConflict)
                else r == Ok(Ended(db, c, ended, directive.value, if to == Confirmed then Completed else Aborted,
                                   gate.value, goal, caller, req.reason))
  {
    hide Valid, Parse, Atomic, TrimSpace, CanTransition, Unique, AllShaped, Received, Ended, ConfirmationBlock;
    MissingIsNotFound(db, req, caller, id);
    ValidIsUnique(db);
    if Live(db, req.key) {
      MoveDecides(db, req, caller, id, to);
      ConfirmationWays(db.rows[req.key].status, to);
      SearchFinds(db, OperationDirective, db.rows[req.key].business.relatedCode, directive);
      if directive.Some? {
        SearchFinds(db, GateUnit, db.rows[directive.value].business.relatedCode, gate);
        if db.rows[req.key].status == Pending && db.rows[directive.value].status == Executing && gate.Some? {
          ReceivedStores(db, req, caller, to, directive.value, gate.value);
        }
      }
    }
  }

  /** Cancelling: a failed confirmation, under the stored version. Nothing else changes. */
  lemma CancelMeets(db: Db, c: Key, expected: nat, target: string, reason: string, caller: Caller, id: nat)
    requires Unique(db) && c.kind == ExecutionConfirmation && TrimSpace(target) == "cancelled"
    ensures var r := Atomic(db, Transition(c, expected, target, reason), caller, id);
            if !Live(db, c) then r == Err(NotFound)
            else if db.rows[c].status != Failed then r == Err(InvalidTransition)
            else if db.rows[c].version != expected then r == Err(VersionConflict)
            else
              && r.Ok?
              && Stores(db, r.value, c, db.rows[c].(status := Cancelled, version := expected + 1),
                        Entry(c, "transition", caller, At(Failed), At(Cancelled), reason))
  {
    var req := Transition(c, expected, target, reason);
    TextNames(TrimSpace(target));
    hide Parse, Atomic, TrimSpace, CanTransition, Unique;
    MissingIsNotFound(db, req, caller, id);
    if Live(db, c) {
      MoveDecides(db, req, caller, id, Cancelled);
      ConfirmationWays(db.rows[c].status, Cancelled);
      if db.rows[c].status == Failed { SaveStores(db, ConfirmationBlock(req, caller, db.rows[c], Cancelled)); }
    }
  }

  /** No other text moves a confirmation. */
  lemma OtherTargetRefused(db: Db, c: Key, expected: nat, target: string, reason: string, caller: Caller, id: nat)
    requires c.kind == ExecutionConfirmation && Live(db, c)
    requires TrimSpace(target) != "confirmed" && TrimSpace(target) != "failed" && TrimSpace(target) != "cancelled"
    ensures Atomic(db, Transition(c, expected, target, reason), caller, id) == Err(InvalidTransition)
  {
    TextNames(TrimSpace(target));
    hide TrimSpace;
    var to := Parse(TrimSpace(target));
    if to.Some? { ConfirmationWays(db.rows[c].status, to.value); }
  }

  // ------------------------------------------------------------- editing a confirmation

  /** A live confirmation of `code` exists. */
  predicate Answered(db: Db, code: string) {
    exists k :: k in db.rows && k.kind == ExecutionConfirmation && !db.rows[k].deleted
                && db.rows[k].business.relatedCode == code
  }

  /** No confirmation of `code` exists, tombstones included. */
  predicate LinkFree(db: Db, code: string) {
    forall k :: k in db.rows && k.kind == ExecutionConfirmation ==> db.rows[k].business.relatedCode != code
  }

  lemma CountsAnswered(db: Db, code: string)
    requires Canon(code) == code
    ensures |LiveConfirmations(db, code)| > 0 <==> Answered(db, code)
  {
    var live := LiveConfirmations(db, code);
    if Answered(db, code) {
      var k :| k in db.rows && k.kind == ExecutionConfirmation && !db.rows[k].deleted
               && db.rows[k].business.relatedCode == code;
      assert k in live;
    }
    if live != {} {
      var k :| k in live;
    }
  }

  /** Creating a confirmation: all names filled in, a live executing directive, no
      confirmation of it yet, and a new code. It starts pending at version 1, with the
      directive's facility, category, risk level and code. */
  lemma CreateMeets(db: Db, code: string, input: Business, caller: Caller, id: nat, directive: Option<Key>)
    requires Valid(db) && Search(db, OperationDirective, input.relatedCode, directive)
    ensures var r := Atomic(db, Create(ExecutionConfirmation, code, input, None, None), caller, id);
            var k := Key(ExecutionConfirmation, id);
            if !Filled(code, input) then r == Err(InvalidInput)
            else if directive.None? then r == Err(NotFound)
            else
              var source := db.rows[directive.value];
              var row := Row(
                ToUpper(TrimSpace(code)), Pending, 1, false,
                Columns(input, source.business.facility, source.business.category, source.business.riskLevel,
                    source.code),
                Closed, "", "", "");
              if source.status != Executing || Answered(db, source.code) then r == Err(InvalidInput)
              else if k in db.rows || !CodeFree(db, ExecutionConfirmation, code) || !LinkFree(db, source.code) then
                r == Err(DuplicateKey)
              else r.Ok? && Stores(db, r.value, k, row, Entry(k, "create", caller, Absent, At(Pending), "created 执行确认"))
  {
    hide Valid;
    Texts();
    ValidIsUnique(db);
    var req := Create(ExecutionConfirmation, code, input, None, None);
    SearchFinds(db, OperationDirective, input.relatedCode, directive);
    CreateReads(db, req);
    if Filled(code, input) && directive.Some? {
      var source := db.rows[directive.value];
      assert Shaped(OperationDirective, source);
      CountsAnswered(db, source.code);
      if source.status == Executing && !Answered(db, source.code) {
        var b := CreateBlock(Key(ExecutionConfirmation, id),
                             NewRow(ExecutionConfirmation, code, CopyFrom(source, input), Closed), caller);
        AtomicIsBlock(db, req, caller, id, b);
        InsertStores(db, b);
      }
    }
  }

  lemma CreateReads(db: Db, req: Request)
    requires req.Create? && req.kind == ExecutionConfirmation
    ensures var read := ReadAll(db, req);
            && read.directive == GetByCode(db, OperationDirective, req.input.relatedCode)
            && (read.directive.Some? ==> read.existing == |LiveConfirmations(db, read.directive.value.row.code)|)
  {
  }

  /** Editing a confirmation: pending, all names filled in, the directive unchanged, live
      and executing, under the stored version. Status and code stay; facility, category
      and risk level are copied from the directive again. */
  lemma UpdateMeets(db: Db, c: Key, expected: nat, input: Business, caller: Caller, id: nat, directive: Option<Key>)
    requires Valid(db) && c.kind == ExecutionConfirmation
    requires Live(db, c) ==> Search(db, OperationDirective, db.rows[c].business.relatedCode, directive)
    ensures var r := Atomic(db, Update(c, expected, input, None, None), caller, id);
            if !Live(db, c) then r == Err(NotFound)
            else
              var current := db.rows[c];
              if !Filled(current.code, input) then r == Err(InvalidInput)
              else if current.status != Pending then r == Err(ImmutableState)
              else if !EqualFold(TrimSpace(input.relatedCode), current.business.relatedCode) then r == Err(InvalidInput)
              else if directive.None? then r == Err(NotFound)
              else
                var source := db.rows[directive.value];
                if source.status != Executing then r == Err(InvalidInput)
                else if current.version != expected then r == Err(VersionConflict)
                else
                  && r.Ok?
                  && Stores(db, r.value, c,
                            current.(version := expected + 1,
                                     business := Columns(input, source.business.facility, source.business.category,
                                                         source.business.riskLevel, source.code)),
                            Entry(c, "update", caller, At(Pending), At(Pending), "updated business fields"))
  {
    hide Valid, EqualFold, TrimSpace, ToUpper, AllShaped;
    ValidIsUnique(db);
    var req := Update(c, expected, input, None, None);
    if Live(db, c) {
      var current := db.rows[c];
      RowIsShaped(db, c);
      SearchFinds(db, OperationDirective, current.business.relatedCode, directive);
      assert ReadAll(db, req).directive == GetByCode(db, OperationDirective, current.business.relatedCode);
      if Filled(current.code, input) && current.status == Pending && directive.Some?
         && EqualFold(TrimSpace(input.relatedCode), current.business.relatedCode)
         && db.rows[directive.value].status == Executing {
        var b := UpdateBlock(c, expected, current.(business := CopyFrom(db.rows[directive.value], input)), caller);
        AtomicIsBlock(db, req, caller, id, b);
        SaveStores(db, b);
      }
    }
  }
}
