/** What every gate handler does with every request, in terms of the stored columns. */
module GateRequirements {
  import opened Outcomes
  import opened Text
  import opened Statuses
  import opened Records
  import opened Transactions
  import opened Handlers
  import opened Validity
  import opened Workflow
  import opened Requirements

  /** The eight ways a gate may be moved. */
  predicate GateWay(from: Status, to: Status) {
    || (from == Open && to == Moving) || (from == Open && to == Locked)
    || (from == Closed && to == Moving) || (from == Closed && to == Locked)
    || (from == Moving && to == Open) || (from == Moving && to == Closed) || (from == Moving && to == Locked)
    || (from == Locked && to == Closed)
  }

  lemma GateWays(from: Status, to: Status)
    ensures CanTransition(GATE_TRANSITIONS, from, to) <==> GateWay(from, to)
  {
  }

  /** The gate status a requested text names. */
  predicate Asks(target: string, to: Status) {
    match to
    case Open => TrimSpace(target) == "open"
    case Closed => TrimSpace(target) == "closed"
    case Moving => TrimSpace(target) == "moving"
    case Locked => TrimSpace(target) == "locked"
    case _ => false
  }

  /** Moving a gate: allowed along the eight ways, under the stored version; only the
      status and the version change. */
  lemma TransitionMeets(db: Db, g: Key, expected: nat, target: string, reason: string, caller: Caller, id: nat,
      to: Status)
    requires Unique(db) && g.kind == GateUnit && Asks(target, to)
    ensures var r := Atomic(db, Transition(g, expected, target, reason), caller, id);
            && (!Live(db, g) ==> r == Err(NotFound))
            && (Live(db, g) && !GateWay(db.rows[g].status, to) ==> r == Err(InvalidTransition))
            && (Live(db, g) && GateWay(db.rows[g].status, to) && db.rows[g].version != expected ==>
                  r == Err(VersionConflict))
            && (Live(db, g) && GateWay(db.rows[g].status, to) && db.rows[g].version == expected ==>
                  && r.Ok?
                  && Stores(db, r.value, g, db.rows[g].(status := to, version := expected + 1),
                            Audit(g, "transition", caller.actor, caller.requestId,
                                  At(db.rows[g].status), At(to), reason)))
  {
    var req := Transition(g, expected, target, reason);
    TextNames(TrimSpace(target));
    hide TrimSpace, Parse;
    if Live(db, g) {
      var current := db.rows[g];
      GateWays(current.status, to);
      if GateWay(current.status, to) {
        var row := current.(status := to, version := expected + 1);
        var b := Block(g, Save(expected, row), None, Recorded(g, caller, current.status, to, reason));
        AtomicIsBlock(db, req, caller, id, b);
        SaveStores(db, b);
      }
    }
  }

  /** A text that names no gate status moves no gate. */
  lemma OtherTargetRefused(db: Db, g: Key, expected: nat, target: string, reason: string, caller: Caller, id: nat)
    requires g.kind == GateUnit && Live(db, g) && forall to :: !Asks(target, to)
    ensures Atomic(db, Transition(g, expected, target, reason), caller, id) == Err(InvalidTransition)
  {
    TextNames(TrimSpace(target));
    var to := Parse(TrimSpace(target));
    assert !Asks(target, Open) && !Asks(target, Closed) && !Asks(target, Moving) && !Asks(target, Locked);
    if to.Some? { GateWays(db.rows[g].status, to.value); }
  }

  /** Creating a gate: all names filled in, a reservoir of the same facility, and a new
      code. The gate starts open at version 1. */
  lemma CreateMeets(db: Db, code: string, input: Business, reservoir: Option<Reservoir>, caller: Caller, id: nat)
    ensures var r := Atomic(db, Create(GateUnit, code, input, None, reservoir), caller, id);
            var k := Key(GateUnit, id);
            var near := reservoir.Some? && EqualFold(TrimSpace(input.facility), reservoir.value.facility);
            var row := Row(
              ToUpper(TrimSpace(code)), Open, 1, false,
              Columns(input, TrimSpace(input.facility), TrimSpace(input.category), input.riskLevel,
                      ToUpper(TrimSpace(input.relatedCode))),
              Closed, "", "", "");
            && (!Filled(code, input) ==> r == Err(InvalidInput))
            && (Filled(code, input) && reservoir.None? ==> r == Err(NotFound))
            && (Filled(code, input) && reservoir.Some? && !near ==> r == Err(InvalidInput))
            && (Filled(code, input) && near && (k in db.rows || !CodeFree(db, GateUnit, code)) ==>
                r == Err(DuplicateKey))
            && (Filled(code, input) && near && k !in db.rows && CodeFree(db, GateUnit, code) ==>
                  r.Ok? && Stores(db, r.value, k, row, Entry(k, "create", caller, Absent, At(Open), "created 闸门")))
  {
    Texts();
    var req := Create(GateUnit, code, input, None, reservoir);
    if Filled(code, input) && reservoir.Some? && EqualFold(TrimSpace(input.facility), reservoir.value.facility) {
      var b := CreateBlock(Key(GateUnit, id), NewRow(GateUnit, code, Tidy(input), Closed), caller);
      AtomicIsBlock(db, req, caller, id, b);
      InsertStores(db, b);
    }
  }

  /** Editing a gate: all names filled in, the reservoir unchanged and of the same
      facility, under the stored version. Status and code stay. */
  lemma UpdateMeets(db: Db, g: Key, expected: nat, input: Business, reservoir: Option<Reservoir>, caller: Caller,
      id: nat)
    requires Unique(db) && g.kind == GateUnit
    ensures var r := Atomic(db, Update(g, expected, input, None, reservoir), caller, id);
            && (!Live(db, g) ==> r == Err(NotFound))
            && (Live(db, g) ==>
                  var current := db.rows[g];
                  var kept := Filled(current.code, input)
                    && EqualFold(TrimSpace(input.relatedCode), current.business.relatedCode);
                  && (!kept ==> r == Err(InvalidInput))
                  && (kept && reservoir.None? ==> r == Err(NotFound))
                  && (kept && reservoir.Some? ==>
                        var near := EqualFold(TrimSpace(input.facility), reservoir.value.facility);
                        && (!near ==> r == Err(InvalidInput))
                        && (near && current.version != expected ==> r == Err(VersionConflict))
                        && (near && current.version == expected ==>
                              && r.Ok?
                              && Stores(db, r.value, g,
                                        current.(version := expected + 1,
                                                 business := Columns(input, TrimSpace(input.facility),
                                                                     TrimSpace(input.category), input.riskLevel,
                                                                     reservoir.value.code)),
                                        Entry(g, "update", caller, At(current.status), At(current.status),
                                              "updated business fields")))))
  {
    var req := Update(g, expected, input, None, reservoir);
    if Live(db, g) && Filled(db.rows[g].code, input)
       && EqualFold(TrimSpace(input.relatedCode), db.rows[g].business.relatedCode)
       && reservoir.Some? && EqualFold(TrimSpace(input.facility), reservoir.value.facility) {
      var current := db.rows[g].(business := Tidy(input).(relatedCode := reservoir.value.code));
      var b := UpdateBlock(g, expected, current, caller);
      AtomicIsBlock(db, req, caller, id, b);
      SaveStores(db, b);
    }
  }
}
