/** What the invariants promise about whole interleaved runs. */
module Guarantees {
  import opened Outcomes
  import opened Text
  import opened Statuses
  import opened Records
  import opened Transactions
  import opened Handlers
  import opened Interleaving
  import opened Versions
  import opened Snapshots
  import opened Lifecycle
  import opened Validity
  import opened Agreement
  import opened Reachability

  // -------------------------------------------------------------- two-person approval

  lemma LedgerMeans(db: Db, d: Key)
    requires Ledgers(db) && d in db.rows && d.kind == OperationDirective
    requires db.rows[d].status in {Approved, Executing, Completed}
    ensures SubmittedAndApproved(db.rows[d], LedgerOf(db.approvals, d.id))
  {
  }

  /** In every reachable state, a directive that is approved, executing or completed
      has exactly two ledger entries: a submission by `submittedBy` and an approval
      by `approvedBy`, by people whose names differ up to case. */
  lemma ApprovedByTwo(w: World, events: seq<Event>, d: Key)
    requires Sound(w) && HonestRun(w, events)
    requires d in Run(w, events).db.rows && d.kind == OperationDirective
    requires Run(w, events).db.rows[d].status in {Approved, Executing, Completed}
    ensures var db := Run(w, events).db;
            var ledger := LedgerOf(db.approvals, d.id);
            && |ledger| == 2
            && ledger[0].stage == StageSubmitted && ledger[0].actor == db.rows[d].submittedBy
            && ledger[1].stage == StageApproved && ledger[1].actor == db.rows[d].approvedBy
            && !EqualFold(ledger[0].actor, ledger[1].actor)
  {
    RunSound(w, events);
    LedgerMeans(Run(w, events).db, d);
  }

  lemma {:induction false} SavesFailByVersion(db: Db, blocks: seq<Block>)
    requires forall i :: 0 <= i < |blocks| ==>
      blocks[i].write.Save? && blocks[i].approval.None? && blocks[i].key.kind != ExecutionConfirmation
    ensures ApplyAll(db, blocks).Err? ==> ApplyAll(db, blocks).error == VersionConflict
    decreases |blocks|
  {
    if blocks == [] || ApplyBlock(db, blocks[0]).Err? {
    } else {
      SavesFailByVersion(ApplyBlock(db, blocks[0]).value, blocks[1..]);
    }
  }

  lemma OnlyOwnBlockApproves(req: Request, caller: Caller, id: nat, read: Reads)
    requires Versioned(req) && Typed(read) && Plan(req, caller, id, read).Ok?
    ensures var blocks := Plan(req, caller, id, read).value;
            && blocks != []
            && (forall i :: 0 < i < |blocks| ==>
                  blocks[i].write.Save? && blocks[i].approval.None? && blocks[i].key.kind != ExecutionConfirmation)
  {
    hide Tidy, CopyFrom, ValidFields, TrimSpace, Canon, EqualFold, Logged;
  }

  /** A legal write over a live row of the expected version meets no unique index. */
  lemma LegalWriteIsStored(db: Db, b: Block)
    requires Unique(db) && Ledgers(db) && b.write.Save? && LiveAt(db, b.key) && Documented(b)
    requires db.rows[b.key].version == b.write.expected && Legal(b, db.rows[b.key])
    ensures ApplyBlock(db, b).Ok?
  {
    assert b.key.kind == ExecutionConfirmation ==>
      !LinkHeldByOther(db.rows, b.key, b.write.row.business.relatedCode);
    if b.approval.Some? { StageNeverTaken(db, b); }
  }

  /** The only way the store can refuse a planned update or transition is a version
      conflict: neither the unique stage index of the ledger nor the unique index on
      related codes ever rejects one. */
  lemma StoreRefusesOnlyStaleVersions(w: World, op: nat, id: nat)
    requires Sound(w) && op in w.ops && Versioned(w.ops[op].req)
    requires Plan(w.ops[op].req, w.ops[op].caller, id, w.ops[op].read).Ok?
    ensures Effect(w.db, w.ops[op], id).Err? ==> Effect(w.db, w.ops[op], id).error == VersionConflict
  {
    var o := w.ops[op];
    var blocks := Plan(o.req, o.caller, id, o.read).value;
    OwnBlockFirst(o.req, o.caller, id, o.read);
    OnlyOwnBlockApproves(o.req, o.caller, id, o.read);
    var b := blocks[0];
    if LiveAt(w.db, b.key) && w.db.rows[b.key].version == b.write.expected {
      PlanDocumented(o.req, o.caller, id, o.read);
      PlanSourced(o.req, o.caller, id, o.read, 0);
      LegalWriteIsStored(w.db, b);
      SavesFailByVersion(ApplyBlock(w.db, b).value, blocks[1..]);
    }
  }

  // -------------------------------------------------------------- the submitted content

  /** What was submitted is what is executed: once a directive has left draft, no
      later commit of the run changes its business fields, its gate target or its
      submitter. */
  lemma SubmittedContentIsFrozen(w: World, events: seq<Event>, i: nat, j: nat, d: Key)
    requires Sound(w) && HonestRun(w, events) && i <= j <= |events|
    requires d.kind == OperationDirective && d in Run(w, events[..i]).db.rows
    requires Run(w, events[..i]).db.rows[d].status != Draft
    ensures var earlier := Run(w, events[..i]).db.rows[d];
            && d in Run(w, events[..j]).db.rows
            && var now := Run(w, events[..j]).db.rows[d];
               now.business == earlier.business && now.gateState == earlier.gateState
               && now.submittedBy == earlier.submittedBy && now.code == earlier.code && now.status != Draft
  {
    hide Run, Sound, HonestRun;
    RunSegment(w, events, i, j);
  }

  // ---------------------------------------------------------------- agreeing outcomes

  /** In every reachable state a directive is completed exactly when one confirmation
      of its code, live or tombstone, is confirmed; and a failed or cancelled
      confirmation has an aborted directive. */
  lemma OutcomesAgree(w: World, events: seq<Event>, d: Key)
    requires Sound(w) && HonestRun(w, events)
    requires d in Run(w, events).db.rows && d.kind == OperationDirective
    ensures var db := Run(w, events).db;
            && (db.rows[d].status == Completed <==> exists c :: Names(db, c, d) && db.rows[c].status == Confirmed)
            && (forall b, c :: Names(db, b, d) && Names(db, c, d) ==> b == c)
            && (forall c :: Names(db, c, d) && db.rows[c].status in {Failed, Cancelled} ==>
                  db.rows[d].status == Aborted)
  {
    RunSound(w, events);
    AgreeingMeans(Run(w, events).db, d);
  }

  // --------------------------------------------------------------------------- races

  /** Handler `o` would save row `k`. */
  predicate Saves(o: Op, id: nat, k: Key) {
    var plan := Plan(o.req, o.caller, id, o.read);
    plan.Ok? && exists i :: 0 <= i < |plan.value| && plan.value[i].key == k && plan.value[i].write.Save?
  }

  lemma CommitSavesSource(db: Db, o: Op, id: nat, k: Key)
    requires OpOk(db, o) && Effect(db, o, id).Ok? && Saves(o, id, k)
    ensures k in db.rows && SourceOf(o.req, o.read, k) == Some(db.rows[k])
  {
    var blocks := Plan(o.req, o.caller, id, o.read).value;
    var i :| 0 <= i < |blocks| && blocks[i].key == k && blocks[i].write.Save?;
    SaveOverwritesItsSource(db, o, id, i);
  }

  lemma SavedRowMovesOn(db: Db, o: Op, id: nat, k: Key)
    requires OpOk(db, o) && Effect(db, o, id).Ok? && Saves(o, id, k)
    ensures k in db.rows && k in Effect(db, o, id).value.rows
    ensures Effect(db, o, id).value.rows[k].version > db.rows[k].version
  {
    var blocks := Plan(o.req, o.caller, id, o.read).value;
    CommitSavesSource(db, o, id, k);
    PlanDocumented(o.req, o.caller, id, o.read);
    TransactionConserves(db, blocks, k);
    var i :| 0 <= i < |blocks| && blocks[i].key == k && blocks[i].write.Save?;
    assert WritesKey(blocks, k);
    SavesMatch(db, blocks, i);
    RowAfter(db, blocks, i);
  }

  lemma SourceIsOlder(db: Db, o: Op, k: Key)
    requires InFlight(db, o) && SourceOf(o.req, o.read, k).Some? && k in db.rows
    ensures SourceOf(o.req, o.read, k).value.version <= db.rows[k].version
  {
  }

  /** A handler cannot save a row that has moved on since it was read. */
  lemma MovedOnRefuses(db: Db, o: Op, id: nat, k: Key)
    requires OpOk(db, o) && Saves(o, id, k) && k in db.rows
    requires SourceOf(o.req, o.read, k).Some? && SourceOf(o.req, o.read, k).value.version < db.rows[k].version
    ensures Effect(db, o, id).Err?
  {
    if Effect(db, o, id).Ok? { CommitSavesSource(db, o, id, k); }
  }

  lemma SavesHasSource(o: Op, id: nat, k: Key)
    requires Bound(o.req) && Coupled(o.req, o.read) && Saves(o, id, k)
    ensures SourceOf(o.req, o.read, k).Some?
  {
    var blocks := Plan(o.req, o.caller, id, o.read).value;
    var i :| 0 <= i < |blocks| && blocks[i].key == k && blocks[i].write.Save?;
    PlanSourced(o.req, o.caller, id, o.read, i);
  }

  /** First committer wins: of two handlers in flight that would save the same row,
      once one has committed the other is refused, now and after any further events. */
  lemma LoserIsRefusedForever(w: World, p: nat, q: nat, id: nat, other: nat, k: Key, events: seq<Event>)
    requires Sound(w) && q in w.ops && Succeeds(w, Commit(p, id)) && p != q
    requires Saves(w.ops[p], id, k) && Saves(w.ops[q], other, k)
    requires HonestRun(Next(w, Commit(p, id)), events)
    ensures Effect(Run(Next(w, Commit(p, id)), events).db, w.ops[q], other).Err?
  {
    hide Valid, Plan, Saves;
    var o := w.ops[q];
    var next := Next(w, Commit(p, id));
    var last := Run(next, events).db;
    StepSound(w, Commit(p, id));
    SavedRowMovesOn(w.db, w.ops[p], id, k);
    SavesHasSource(o, other, k);
    SourceIsOlder(w.db, o, k);
    RunSound(next, events);
    EvolvesTransitive(w.db, next.db, last);
    OpOkEvolves(w.db, last, o);
    assert Newer(next.db.rows[k], last.rows[k]);
    MovedOnRefuses(last, o, other, k);
  }

  /** The status of row `k` before event `i` of a run, if it exists by then. */
  ghost function StatusBefore(w: World, events: seq<Event>, i: nat, k: Key): Option<Status>
    requires i <= |events|
  {
    StatusAt(Run(w, events[..i]), k)
  }

  lemma StatusReaches(w: World, events: seq<Event>, i: nat, j: nat, k: Key)
    requires Sound(w) && HonestRun(w, events) && i <= j <= |events|
    requires StatusBefore(w, events, i, k).Some?
    ensures StatusBefore(w, events, j, k).Some?
    ensures Reaches(k.kind, StatusBefore(w, events, i, k).value, StatusBefore(w, events, j, k).value)
  {
    RunSegment(w, events, i, j);
    assert Follows(k.kind, Run(w, events[..i]).db.rows[k], Run(w, events[..j]).db.rows[k]);
  }

  lemma EndIsFinal(end: Status, later: Status)
    requires Reaches(OperationDirective, Executing, end) && end != Executing
    requires Reaches(OperationDirective, end, later)
    ensures end in {Completed, Aborted} && later == end
  {
  }

  /** An executing directive ends once: whichever of confirm, fail and abort commits
      first decides its status for the rest of the run. */
  lemma ExecutionEndsOnce(w: World, events: seq<Event>, i: nat, j: nat, d: Key)
    requires Sound(w) && HonestRun(w, events) && i < j <= |events| && d.kind == OperationDirective
    requires StatusBefore(w, events, i, d) == Some(Executing)
    requires StatusBefore(w, events, i + 1, d) != Some(Executing)
    ensures StatusBefore(w, events, i + 1, d) in {Some(Completed), Some(Aborted)}
    ensures StatusBefore(w, events, j, d) == StatusBefore(w, events, i + 1, d)
  {
    StatusReaches(w, events, i, i + 1, d);
    StatusReaches(w, events, i + 1, j, d);
    EndIsFinal(StatusBefore(w, events, i + 1, d).value, StatusBefore(w, events, j, d).value);
  }

  // ------------------------------------------------------------------ who moves a directive

  /** Viewers move nothing, approval is for reviewers, submission and execution are for
      operators, and completion is for nobody. */
  predicate RoleMoves(role: Role, to: Status) {
    match to
    case Pending => role in {Operator, Admin}
    case Approved => role in {Reviewer, Admin}
    case Executing => role in {Operator, Admin}
    case Aborted => role != Viewer
    case _ => false
  }

  /** The handlers that save a directive row, and what they may write. */
  lemma DirectiveWriters(req: Request, caller: Caller, id: nat, read: Reads, i: nat)
    requires Plan(req, caller, id, read).Ok? && i < |Plan(req, caller, id, read).value| && Typed(read)
    requires var b := Plan(req, caller, id, read).value[i]; b.key.kind == OperationDirective && b.write.Save?
    ensures var b := Plan(req, caller, id, read).value[i];
            || (req.Update? && b.key == req.key && read.primary.Some?
                && b.write.row.status == read.primary.value.status)
            || (req.Transition? && b.key == req.key && RoleMoves(caller.role, b.write.row.status)
                && (b.write.row.status == Approved ==> !EqualFold(b.write.row.submittedBy, caller.actor)))
            || (req.Transition? && req.key.kind == ExecutionConfirmation && read.directive.Some?
                && b.key == read.directive.value.key
                && read.directive.value.row.status == Executing && b.write.row.status in {Completed, Aborted})
  {
    hide TrimSpace, EqualFold, Tidy, ValidFields, Canon, Logged, CopyFrom;
  }

  /** In any honest run, whoever changes the status of a directive either asks for it
      himself, in a role that may, and approves only what another has submitted; or
      reports the end of its execution by a receipt. */
  lemma DirectiveMovesByRole(w: World, events: seq<Event>, i: nat, d: Key)
    requires Sound(w) && HonestRun(w, events) && i < |events| && d.kind == OperationDirective
    requires StatusBefore(w, events, i, d).Some? && StatusBefore(w, events, i + 1, d) != StatusBefore(w, events, i, d)
    ensures Succeeds(Run(w, events[..i]), events[i]) && d in Run(w, events[..i + 1]).db.rows
    ensures var o := Run(w, events[..i]).ops[events[i].op];
            var from := StatusBefore(w, events, i, d).value;
            var row := Run(w, events[..i + 1]).db.rows[d];
            && o.req.Transition?
            && (|| (o.req.key == d && RoleMoves(o.caller.role, row.status)
                    && (row.status == Approved ==> !EqualFold(row.submittedBy, o.caller.actor)))
                || (o.req.key.kind == ExecutionConfirmation && from == Executing && row.status in {Completed, Aborted}))
  {
    hide RoleMoves, EqualFold, HonestRun, Sound;
    RunSegment(w, events, i, i);
    RunSegment(w, events, i, i + 1);
    RunPrefix(w, events, i);
    var now := Run(w, events[..i]);
    DbAfter(now, events[i]);
    SoundOp(now, events[i]);
    CommitMovesByRole(now.db, now.ops[events[i].op], events[i].id, d);
  }

  lemma SoundOp(w: World, e: Event)
    requires Sound(w) && Succeeds(w, e)
    ensures OpOk(w.db, w.ops[e.op])
  {
  }

  lemma CommitMovesByRole(db: Db, o: Op, id: nat, d: Key)
    requires OpOk(db, o) && Effect(db, o, id).Ok? && d.kind == OperationDirective && d in db.rows
    requires d in Effect(db, o, id).value.rows && Effect(db, o, id).value.rows[d].status != db.rows[d].status
    ensures var row := Effect(db, o, id).value.rows[d];
            && o.req.Transition?
            && (|| (o.req.key == d && RoleMoves(o.caller.role, row.status)
                    && (row.status == Approved ==> !EqualFold(row.submittedBy, o.caller.actor)))
                || (o.req.key.kind == ExecutionConfirmation && db.rows[d].status == Executing
                    && row.status in {Completed, Aborted}))
  {
    hide RoleMoves, EqualFold, Plan, ApplyAll, Follows;
    var blocks := Plan(o.req, o.caller, id, o.read).value;
    PlanDocumented(o.req, o.caller, id, o.read);
    if !WritesKey(blocks, d) { RowUntouched(db, blocks, d); }
    var i :| 0 <= i < |blocks| && blocks[i].key == d;
    RowAfter(db, blocks, i);
    SaveOverwritesItsSource(db, o, id, i);
    DirectiveWriters(o.req, o.caller, id, o.read, i);
  }

  // ------------------------------------------------------------------ bounded lifecycle

  function StatusAt(w: World, k: Key): Option<Status> {
    if k in w.db.rows then Some(w.db.rows[k].status) else None
  }

  /** The number of events of the run that change the status of an existing row. */
  ghost function Changes(w: World, events: seq<Event>, k: Key): nat
    decreases |events|
  {
    if events == [] then 0
    else
      var before, after := StatusAt(Run(w, events[..|events| - 1]), k), StatusAt(Run(w, events), k);
      Changes(w, events[..|events| - 1], k) + if before.Some? && before != after then 1 else 0
  }

  /** Status changes a row has left; a row yet to be created has all of them. */
  function Left(w: World, k: Key): nat {
    Rank(k.kind, if k in w.db.rows then w.db.rows[k].status else InitialStatus(k.kind))
  }

  lemma NewRowIsInitial(db: Db, o: Op, id: nat, k: Key)
    requires OpOk(db, o) && Effect(db, o, id).Ok? && k !in db.rows && k in Effect(db, o, id).value.rows
    ensures Effect(db, o, id).value.rows[k].status == InitialStatus(k.kind)
  {
    var blocks := Plan(o.req, o.caller, id, o.read).value;
    PlanDocumented(o.req, o.caller, id, o.read);
    if !WritesKey(blocks, k) { RowUntouched(db, blocks, k); }
    var i :| 0 <= i < |blocks| && blocks[i].key == k;
    RowAfter(db, blocks, i);
    CommitFits(db, o, id, i);
  }

  lemma StepDescends(w: World, e: Event, k: Key)
    requires Sound(w) && HonestEvent(w, e) && k.kind != GateUnit
    ensures Left(Next(w, e), k) <= Left(w, k)
    ensures k in w.db.rows && StatusAt(w, k) != StatusAt(Next(w, e), k) ==> Left(Next(w, e), k) < Left(w, k)
  {
    StepSound(w, e);
    if k in w.db.rows {
      assert Follows(k.kind, w.db.rows[k], Next(w, e).db.rows[k]);
      assert Shaped(k.kind, Next(w, e).db.rows[k]) && Shaped(k.kind, w.db.rows[k]);
      ReachDescends(k.kind, w.db.rows[k].status, Next(w, e).db.rows[k].status);
    } else if k in Next(w, e).db.rows {
      NewRowIsInitial(w.db, w.ops[e.op], e.id, k);
    }
  }

  lemma ReachDescends(kind: Kind, a: Status, b: Status)
    requires kind != GateUnit && StatusOf(kind, a) && StatusOf(kind, b) && Reaches(kind, a, b)
    ensures a == b || Rank(kind, b) < Rank(kind, a)
  {
  }

  lemma {:induction false} ChangesBounded(w: World, events: seq<Event>, k: Key)
    requires Sound(w) && HonestRun(w, events) && k.kind != GateUnit
    ensures Changes(w, events, k) + Left(Run(w, events), k) <= Left(w, k)
    decreases |events|
  {
    if events == [] {
    } else {
      var n := |events| - 1;
      HonestPrefix(w, events, n);
      RunSound(w, events[..n]);
      ChangesBounded(w, events[..n], k);
      assert HonestEvent(Run(w, events[..n]), events[n]);
      StepDescends(Run(w, events[..n]), events[n], k);
    }
  }

  /** In any honest run a directive changes status at most four times and a
      confirmation at most twice. */
  lemma LifecyclesAreShort(w: World, events: seq<Event>, k: Key)
    requires Sound(w) && HonestRun(w, events)
    ensures k.kind == OperationDirective ==> Changes(w, events, k) <= 4
    ensures k.kind == ExecutionConfirmation ==> Changes(w, events, k) <= 2
  {
    if k.kind != GateUnit { ChangesBounded(w, events, k); }
  }

  // ---------------------------------------------------------------------- gate paths

  /** One commit moves any row along at most one edge of its graph. */
  lemma {:induction false} TransactionEdges(db: Db, blocks: seq<Block>, k: Key)
    requires DistinctKeys(blocks) && AllFit(db, blocks) && ApplyAll(db, blocks).Ok? && k in db.rows
    ensures var next := ApplyAll(db, blocks).value;
            k in next.rows
            && (next.rows[k].status == db.rows[k].status
                || CanTransition(GraphOf(k.kind), db.rows[k].status, next.rows[k].status))
    decreases |blocks|
  {
    if blocks == [] {
    } else {
      var mid := ApplyBlock(db, blocks[0]).value;
      assert Fits(db, blocks[0]);
      BlockFrame(db, blocks[0]);
      if blocks[0].key == k {
        HeadKeyOnce(blocks, k);
        RowUntouched(mid, blocks[1..], k);
      } else {
        RestStillFits(db, blocks);
        TransactionEdges(mid, blocks[1..], k);
      }
    }
  }

  lemma StepFollowsEdges(w: World, e: Event, k: Key)
    requires Sound(w) && HonestEvent(w, e) && k in w.db.rows
    ensures k in Next(w, e).db.rows
    ensures var from, to := w.db.rows[k].status, Next(w, e).db.rows[k].status;
            from == to || CanTransition(GraphOf(k.kind), from, to)
  {
    if Succeeds(w, e) {
      var o := w.ops[e.op];
      var blocks := Plan(o.req, o.caller, e.id, o.read).value;
      PlanDocumented(o.req, o.caller, e.id, o.read);
      forall i | 0 <= i < |blocks| ensures Fits(w.db, blocks[i]) { CommitFits(w.db, o, e.id, i); }
      TransactionEdges(w.db, blocks, k);
    }
  }

  lemma EventFollowsEdges(w: World, events: seq<Event>, j: nat, k: Key)
    requires Sound(w) && HonestRun(w, events) && j < |events|
    requires StatusBefore(w, events, j, k).Some?
    ensures StatusBefore(w, events, j + 1, k).Some?
    ensures var from, to := StatusBefore(w, events, j, k).value, StatusBefore(w, events, j + 1, k).value;
            from == to || CanTransition(GraphOf(k.kind), from, to)
  {
    RunSegment(w, events, j, j);
    RunPrefix(w, events, j);
    assert HonestEvent(Run(w, events[..j]), events[j]);
    StepFollowsEdges(Run(w, events[..j]), events[j], k);
  }

  /** Whoever writes the gate, every status change of the run is one edge of its
      graph, so a gate seen closed and later open was moving in between. */
  lemma {:induction false} OpensOnlyThroughMoving(w: World, events: seq<Event>, i: nat, j: nat, g: Key) returns (m: nat)
    requires Sound(w) && HonestRun(w, events) && i <= j <= |events| && g.kind == GateUnit
    requires StatusBefore(w, events, i, g) == Some(Closed)
    requires StatusBefore(w, events, j, g) == Some(Open)
    ensures i < m < j && StatusBefore(w, events, m, g) == Some(Moving)
    decreases j
  {
    hide Run, Sound, HonestRun, CanTransition, Reaches, StatusAt;
    StatusReaches(w, events, i, j - 1, g);
    EventFollowsEdges(w, events, j - 1, g);
    var before := StatusBefore(w, events, j - 1, g).value;
    GateEdges(before, Open);
    if before == Moving {
      m := j - 1;
    } else {
      m := OpensOnlyThroughMoving(w, events, i, j - 1, g);
    }
  }
}
