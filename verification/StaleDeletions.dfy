/** Only a stale deletion can keep a run from having a serial order, and it always does. */
module StaleDeletions {
  import opened Outcomes
  import opened Statuses
  import opened Records
  import opened Transactions
  import opened Handlers
  import opened Interleaving
  import opened Versions
  import opened Snapshots
  import opened Lifecycle
  import opened Validity
  import opened Reachability
  import opened Refinement
  import opened Guarantees
  import opened Receipts
  import opened Workflow
  import opened DecisionPoints
  import opened Executions
  import opened Places
  import opened SerialSteps
  import opened Serial

  // ------------------------------------------------------------------ stale deletions

  lemma {:induction false} SeriesPrefix(db: Db, calls: seq<Call>, n: nat)
    requires Series(db, calls).Ok? && n <= |calls|
    ensures Series(db, calls[..n]).Ok?
    decreases |calls|
  {
    if n == |calls| {
      assert calls[..n] == calls;
    } else {
      var init := calls[..|calls| - 1];
      SeriesPrefix(db, init, n);
      assert init[..n] == calls[..n];
    }
  }

  ghost function Stage(db: Db, calls: seq<Call>, n: nat): Db
    requires Series(db, calls).Ok? && n <= |calls|
  {
    SeriesPrefix(db, calls, n);
    Series(db, calls[..n]).value
  }

  lemma StageStep(db: Db, calls: seq<Call>, n: nat)
    requires Series(db, calls).Ok? && n < |calls|
    ensures Atomic(Stage(db, calls, n), calls[n].req, calls[n].caller, calls[n].id) == Ok(Stage(db, calls, n + 1))
  {
    hide Atomic;
    SeriesPrefix(db, calls, n);
    SeriesPrefix(db, calls, n + 1);
    assert calls[..n + 1][..n] == calls[..n];
  }

  /** A request that succeeds was honest: it expected the stored version. */
  lemma SuccessIsHonest(db: Db, c: Call)
    requires Bound(c.req) && Atomic(db, c.req, c.caller, c.id).Ok?
    ensures Honest(db, c.req)
  {
    hide ReadAll, Bound;
    if Versioned(c.req) {
      OwnBlockFirst(c.req, c.caller, c.id, ReadAll(db, c.req));
      var blocks := Plan(c.req, c.caller, c.id, ReadAll(db, c.req)).value;
      hide Plan;
      assert ApplyBlock(db, blocks[0]).Ok?;
    }
  }

  ghost predicate AllBound(calls: seq<Call>) {
    forall j :: 0 <= j < |calls| ==> Bound(calls[j].req)
  }

  lemma {:induction false} StagesEvolve(db: Db, calls: seq<Call>, a: nat, b: nat)
    requires Valid(db) && AllBound(calls) && Series(db, calls).Ok? && a <= b <= |calls|
    ensures Valid(Stage(db, calls, b)) && Evolves(Stage(db, calls, a), Stage(db, calls, b))
    decreases b, b - a
  {
    hide Valid, Evolves, Atomic, Bound, Honest;
    if b == 0 {
      assert calls[..0] == [];
      EvolvesReflexive(db);
    } else {
      StagesEvolve(db, calls, b - 1, b - 1);
      StageStep(db, calls, b - 1);
      var mid, c := Stage(db, calls, b - 1), calls[b - 1];
      SuccessIsHonest(mid, c);
      AtomicKeeps(mid, c.req, c.caller, c.id);
      if a == b {
        EvolvesReflexive(Stage(db, calls, b));
      } else {
        StagesEvolve(db, calls, a, b - 1);
        EvolvesTransitive(Stage(db, calls, a), mid, Stage(db, calls, b));
      }
    }
  }

  lemma DeleteStep(db: Db, c: Call, next: Db)
    requires DeletesNonGate(c.req) && Atomic(db, c.req, c.caller, c.id) == Ok(next)
    ensures LiveAt(db, c.req.key) && db.rows[c.req.key].status == InitialStatus(c.req.key.kind)
    ensures c.req.key in next.rows && next.rows[c.req.key].deleted
  {
    var o := Op(c.req, c.caller, ReadAll(db, c.req), STAGES);
    DeleteCommitsIffLive(db, o, c.id);
  }

  lemma ReadsOwnRow(db: Db, req: Request)
    requires !req.Create?
    ensures ReadAll(db, req).primary == Get(db, req.key)
  {
  }

  lemma ReadsTyped(db: Db, req: Request)
    ensures Typed(ReadAll(db, req))
  {
  }

  lemma TransitionStep(db: Db, c: Call, next: Db)
    requires c.req.Transition? && c.req.key.kind != GateUnit && Atomic(db, c.req, c.caller, c.id) == Ok(next)
    ensures LiveAt(db, c.req.key) && c.req.key in next.rows
    ensures next.rows[c.req.key].status != InitialStatus(c.req.key.kind)
  {
    hide Plan, ApplyAll, ReadAll, CanTransition, GraphOf, InitialStatus, Typed, WellPlanned;
    var read := ReadAll(db, c.req);
    ReadsTyped(db, c.req);
    ReadsOwnRow(db, c.req);
    var b := TransitionPlanMoves(c.req, c.caller, c.id, read);
    NoEdgeBack(c.req.key.kind, read.primary.value.status, b.write.row.status);
    PlanDocumented(c.req, c.caller, c.id, read);
    FirstBlockStored(db, Plan(c.req, c.caller, c.id, read).value, b);
  }

  lemma FirstBlockStored(db: Db, blocks: seq<Block>, b: Block)
    requires WellPlanned(blocks) && ApplyAll(db, blocks).Ok? && blocks[0] == b && b.write.Save?
    ensures var next := ApplyAll(db, blocks).value; b.key in next.rows && next.rows[b.key].status == b.write.row.status
  {
    RowAfter(db, blocks, 0);
  }

  /** One-step handlers cannot both delete a directive or confirmation and move it. */
  lemma NotBothServed(db: Db, calls: seq<Call>, p: nat, q: nat)
    requires Valid(db) && AllBound(calls) && p < |calls| && q < |calls|
    requires DeletesNonGate(calls[p].req) && calls[q].req.Transition? && calls[q].req.key == calls[p].req.key
    ensures Series(db, calls).Err?
  {
    hide Valid, Atomic, Honest, Bound;
    if Series(db, calls).Ok? {
      var k := calls[p].req.key;
      StageStep(db, calls, p);
      StageStep(db, calls, q);
      DeleteStep(Stage(db, calls, p), calls[p], Stage(db, calls, p + 1));
      TransitionStep(Stage(db, calls, q), calls[q], Stage(db, calls, q + 1));
      if p < q {
        StagesEvolve(db, calls, p + 1, q);
        DeadStaysDead(Stage(db, calls, p + 1), Stage(db, calls, q), k);
      } else {
        StagesEvolve(db, calls, q + 1, p);
        MovedStaysMoved(Stage(db, calls, q + 1), Stage(db, calls, p), k);
      }
    }
  }

  lemma DeadStaysDead(a: Db, b: Db, k: Key)
    requires Evolves(a, b) && k in a.rows && a.rows[k].deleted
    ensures !LiveAt(b, k)
  {
    assert Newer(a.rows[k], b.rows[k]);
  }

  lemma MovedStaysMoved(a: Db, b: Db, k: Key)
    requires Evolves(a, b) && k in a.rows && k.kind != GateUnit && a.rows[k].status != InitialStatus(k.kind)
    ensures k in b.rows && b.rows[k].status != InitialStatus(k.kind)
  {
    assert Follows(k.kind, a.rows[k], b.rows[k]);
  }

  // ------------------------------------------------------------- who made it stale

  /** The commit that moves row `k` from status `s`, which it has lost between two times. */
  lemma {:induction false} StatusLeft(x: Execution, a: nat, b: nat, k: Key, s: Status) returns (m: nat)
    requires HonestExecution(x) && a <= b <= |x.events| && k in StateAt(x, a).rows && k in StateAt(x, b).rows
    requires StateAt(x, a).rows[k].status == s && StateAt(x, b).rows[k].status != s
    ensures a <= m < b && Commits(x, m) && k in StateAt(x, m).rows && k in StateAt(x, m + 1).rows
    ensures StateAt(x, m).rows[k].status == s && StateAt(x, m + 1).rows[k].status != s
    decreases b - a
  {
    hide HonestExecution, StateAt, Commits, Valid;
    HonestSegment(x, a, b - 1);
    HonestSegment(x, b - 1, b);
    RowStays(StateAt(x, a), StateAt(x, b - 1), k);
    if StateAt(x, b - 1).rows[k].status == s {
      m := b - 1;
      if !Commits(x, m) { Quiet(x, m); }
    } else {
      m := StatusLeft(x, a, b - 1, k, s);
    }
  }

  lemma RowStays(a: Db, b: Db, k: Key)
    requires Evolves(a, b) && k in a.rows
    ensures k in b.rows
  {
  }

  /** Only a transition of its own moves a directive or a confirmation from its first
      status. */
  lemma FirstMoveIsOwn(x: Execution, m: nat, k: Key)
    requires HonestExecution(x) && Commits(x, m) && k.kind != GateUnit
    requires k in StateAt(x, m).rows && k in StateAt(x, m + 1).rows
    requires StateAt(x, m).rows[k].status == InitialStatus(k.kind) != StateAt(x, m + 1).rows[k].status
    ensures Handler(x, m).req.Transition? && Handler(x, m).req.key == k
  {
    hide HonestExecution, Plan, ApplyAll, Valid, OpOk;
    HonestCommit(x, m);
    var db, o, id := StateAt(x, m), Handler(x, m), NewId(x, m);
    if k.kind == OperationDirective {
      CommitMovesByRole(db, o, id, k);
    } else {
      ReceiptMoveIsOwn(db, o, id, k);
    }
  }

  lemma ReceiptMoveIsOwn(db: Db, o: Op, id: nat, c: Key)
    requires OpOk(db, o) && Effect(db, o, id).Ok? && c.kind == ExecutionConfirmation && c in db.rows
    requires c in Effect(db, o, id).value.rows && Effect(db, o, id).value.rows[c].status != db.rows[c].status
    ensures o.req.Transition? && o.req.key == c
  {
    hide Follows, ApplyAll, Plan;
    var blocks := Plan(o.req, o.caller, id, o.read).value;
    OpOkInFlight(db, o);
    PlanDocumented(o.req, o.caller, id, o.read);
    if !WritesKey(blocks, c) { RowUntouched(db, blocks, c); }
    var i :| 0 <= i < |blocks| && blocks[i].key == c;
    RowAfter(db, blocks, i);
    ReceiptBlockIsOwn(o.req, o.caller, id, o.read, i);
    match o.req
    case Create(_, _, _, _, _) => CreatesPlanOneInsert(o.req, o.caller, id, o.read);
    case Update(_, _, _, _, _) =>
      UpdatedColumns(o.req, o.caller, id, o.read);
      SaveOverwritesItsSource(db, o, id, i);
    case Transition(_, _, _, _) =>
    case Delete(_) => RemoveMeansDelete(o.req, o.caller, id, o.read, i);
  }

  lemma DeletionReadFirstStatus(db: Db, o: Op, id: nat)
    requires DeletesNonGate(o.req) && Effect(db, o, id).Ok? && !DeletesWhatItRead(db, o)
    ensures o.read.primary.Some? && o.read.primary.value.status == InitialStatus(o.req.key.kind)
    ensures o.req.key in db.rows && db.rows[o.req.key].status != InitialStatus(o.req.key.kind)
  {
    DeleteCommitsIffLive(db, o, id);
  }

  /** A stale deletion was overtaken by a transition of its own row. */
  lemma StaleDeletion(x: Execution, i: nat) returns (m: nat)
    requires HonestExecution(x) && Commits(x, i) && DeletesNonGate(Handler(x, i).req)
    requires !DeletesWhatItRead(StateAt(x, i), Handler(x, i))
    ensures Commits(x, m) && Handler(x, m).req.Transition? && Handler(x, m).req.key == Handler(x, i).req.key
  {
    hide HonestExecution, Plan, ApplyAll, Valid, OpOk, InFlightSince, Succeeds, DeletesWhatItRead;
    HonestCommit(x, i);
    HonestlyRead(x, i);
    var ts :| ReadWhen(x, i, ts);
    var o := Handler(x, i);
    var k := o.req.key;
    DeletionReadFirstStatus(StateAt(x, i), o, NewId(x, i));
    m := StatusLeft(x, ts.own, i, k, InitialStatus(k.kind));
    FirstMoveIsOwn(x, m, k);
  }

  lemma CallsAreBound(x: Execution, order: seq<nat>)
    requires HonestExecution(x) && forall i :: i in order ==> Commits(x, i)
    ensures AllBound(CallsOf(x, order))
  {
    hide HonestExecution, Commits, Handler, Bound;
    forall j | 0 <= j < |order| ensures Bound(CallOf(x, order[j]).req) {
      assert order[j] in order;
      HandlerIsBound(x, order[j]);
    }
  }

  lemma HandlerIsBound(x: Execution, i: nat)
    requires HonestExecution(x) && Commits(x, i)
    ensures Bound(Handler(x, i).req)
  {
    hide HonestExecution, Commits, Handler, Plan, ApplyAll, Valid;
    HonestCommit(x, i);
  }

  /** After a stale deletion there is no serial order, whatever rows it is to leave. */
  lemma StaleIsNotSerial(x: Execution, i: nat, order: seq<nat>)
    requires HonestExecution(x) && Commits(x, i) && DeletesNonGate(Handler(x, i).req)
    requires !DeletesWhatItRead(StateAt(x, i), Handler(x, i)) && forall l: nat :: l in order <==> Commits(x, l)
    ensures Series(x.start, CallsOf(x, order)).Err?
  {
    hide HonestExecution, Commits, Handler, StateAt, DeletesWhatItRead, AllBound, Series, Valid;
    var m := StaleDeletion(x, i);
    var p :| 0 <= p < |order| && order[p] == i;
    var q :| 0 <= q < |order| && order[q] == m;
    CallsAreBound(x, order);
    HonestStart(x);
    NotBothServed(x.start, CallsOf(x, order), p, q);
  }

  lemma HonestStart(x: Execution)
    requires HonestExecution(x)
    ensures Valid(x.start)
  {
  }

  /** Exactly when a whole run is serialisable: the successful commits of an honest run
      have an order in which the same requests, served by one-step handlers one after
      the other, all succeed and leave the same rows, if and only if no deletion of a
      directive or a confirmation has found another status than it had read. */
  lemma RunIsSerialIff(x: Execution)
    requires HonestExecution(x)
    ensures (exists order, last :: SerialOrder(x, order, last)) <==> DeletesInTime(x)
  {
    hide HonestExecution, Series, Valid, StateAt, Handler, Commits;
    if DeletesInTime(x) {
      var order, last := RunIsSerial(x);
    } else {
      var i: nat :| Commits(x, i) && DeletesNonGate(Handler(x, i).req)
          && !DeletesWhatItRead(StateAt(x, i), Handler(x, i));
      forall order, last ensures !SerialOrder(x, order, last) {
        if SerialOrder(x, order, last) { StaleIsNotSerial(x, i, order); }
      }
    }
  }
}
