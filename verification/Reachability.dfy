/** Every state reachable by interleaved handlers keeps the invariants, provided
    each client sends only versions that had already been stored. */
module Reachability {
  import opened Outcomes
  import opened Text
  import opened Statuses
  import opened Records
  import opened Transactions
  import opened Handlers
  import opened Interleaving
  import opened Versions
  import opened Snapshots
  import opened Lifecycle
  import opened Validity
  import opened Agreement

  ghost predicate Valid(db: Db) {
    AllShaped(db) && Unique(db) && Ledgers(db) && Agreeing(db)
  }

  /** A client may expect only a version the row already had. */
  predicate Honest(db: Db, req: Request) {
    && Bound(req)
    && (Versioned(req) ==> req.key in db.rows && req.expected <= db.rows[req.key].version)
  }

  /** What is known of a handler in flight. */
  predicate OpOk(db: Db, o: Op) {
    && InFlight(db, o)
    && Bound(o.req)
    && Coupled(o.req, o.read)
    && (o.stage == 0 ==> o.read == NOTHING_READ && Honest(db, o.req))
    && (o.stage == 1 ==> o.read.directive.None?)
    && (o.read.primary.Some? ==>
          && Follows(o.req.key.kind, o.read.primary.value, db.rows[o.req.key])
          && (Versioned(o.req) ==> o.req.expected <= o.read.primary.value.version))
    && (o.read.directive.Some? ==>
          Follows(OperationDirective, o.read.directive.value.row, db.rows[o.read.directive.value.key]))
  }

  ghost predicate Sound(w: World) {
    Valid(w.db) && forall op :: op in w.ops ==> OpOk(w.db, w.ops[op])
  }

  predicate HonestEvent(w: World, e: Event) {
    e.Begin? ==> Honest(w.db, e.req)
  }

  /** Every request of the run is honest when it begins. */
  ghost predicate HonestRun(w: World, events: seq<Event>) {
    forall i :: 0 <= i < |events| ==> HonestEvent(Run(w, events[..i]), events[i])
  }

  // --------------------------------------------------------------------- in flight

  lemma OpOkEvolves(a: Db, b: Db, o: Op)
    requires OpOk(a, o) && Evolves(a, b)
    ensures OpOk(b, o)
  {
    InFlightGrows(a, b, o);
    if o.read.primary.Some? {
      var k := o.req.key;
      FollowsTransitive(k.kind, o.read.primary.value, a.rows[k], b.rows[k]);
    }
    if o.read.directive.Some? {
      var k := o.read.directive.value.key;
      FollowsTransitive(OperationDirective, o.read.directive.value.row, a.rows[k], b.rows[k]);
    }
  }

  lemma ReadKeepsOpOk(db: Db, o: Op)
    requires AllShaped(db) && OpOk(db, o) && o.stage < STAGES
    ensures OpOk(db, o.(read := ReadNext(db, o.req, o.read, o.stage), stage := o.stage + 1))
  {
    ReadInFlight(db, o);
  }

  // ------------------------------------------------------------- a commit writes what it read

  lemma {:induction false} SavesMatch(db: Db, blocks: seq<Block>, i: nat)
    requires DistinctKeys(blocks) && ApplyAll(db, blocks).Ok?
    requires i < |blocks| && blocks[i].write.Save?
    ensures LiveAt(db, blocks[i].key) && db.rows[blocks[i].key].version == blocks[i].write.expected
    decreases i
  {
    BlockFrame(db, blocks[0]);
    if i == 0 {
    } else {
      var rest := blocks[1..];
      assert DistinctKeys(rest) by { DistinctTail(blocks); }
      assert rest[i - 1] == blocks[i];
      SavesMatch(ApplyBlock(db, blocks[0]).value, rest, i - 1);
    }
  }

  lemma DistinctTail(blocks: seq<Block>)
    requires blocks != [] && DistinctKeys(blocks)
    ensures DistinctKeys(blocks[1..])
  {
    forall i, j | 0 <= i < j < |blocks[1..]| ensures blocks[1..][i].key != blocks[1..][j].key {
      assert blocks[i + 1].key != blocks[j + 1].key;
    }
  }

  /** Whatever row a successful commit overwrites still holds the content the
      handler read. */
  lemma SaveOverwritesItsSource(db: Db, o: Op, id: nat, i: nat)
    requires OpOk(db, o) && Effect(db, o, id).Ok?
    requires i < |Plan(o.req, o.caller, id, o.read).value| && Plan(o.req, o.caller, id, o.read).value[i].write.Save?
    ensures var k := Plan(o.req, o.caller, id, o.read).value[i].key;
            k in db.rows && SourceOf(o.req, o.read, k) == Some(db.rows[k])
  {
    var blocks := Plan(o.req, o.caller, id, o.read).value;
    PlanDocumented(o.req, o.caller, id, o.read);
    PlanSourced(o.req, o.caller, id, o.read, i);
    SavesMatch(db, blocks, i);
    var k := blocks[i].key;
    var source := SourceOf(o.req, o.read, k).value;
    assert Snapshot(db, k, source);
  }

  lemma CommitFits(db: Db, o: Op, id: nat, i: nat)
    requires OpOk(db, o) && Effect(db, o, id).Ok?
    requires i < |Plan(o.req, o.caller, id, o.read).value|
    ensures Fits(db, Plan(o.req, o.caller, id, o.read).value[i])
  {
    var b := Plan(o.req, o.caller, id, o.read).value[i];
    PlanDocumented(o.req, o.caller, id, o.read);
    PlanSourced(o.req, o.caller, id, o.read, i);
    if b.write.Save? {
      SaveOverwritesItsSource(db, o, id, i);
      SavesMatch(db, Plan(o.req, o.caller, id, o.read).value, i);
    }
  }

  // -------------------------------------------------------- a transaction keeps the invariants

  predicate AllFit(db: Db, blocks: seq<Block>) {
    forall i :: 0 <= i < |blocks| ==> Fits(db, blocks[i])
  }

  lemma RestStillFits(db: Db, blocks: seq<Block>)
    requires blocks != [] && DistinctKeys(blocks) && AllFit(db, blocks) && ApplyBlock(db, blocks[0]).Ok?
    ensures DistinctKeys(blocks[1..]) && AllFit(ApplyBlock(db, blocks[0]).value, blocks[1..])
  {
    DistinctTail(blocks);
    BlockFrame(db, blocks[0]);
    forall i | 0 <= i < |blocks[1..]| ensures Fits(ApplyBlock(db, blocks[0]).value, blocks[1..][i]) {
      assert Fits(db, blocks[i + 1]);
      assert blocks[0].key != blocks[i + 1].key;
    }
  }

  lemma {:induction false} TransactionKeeps(db: Db, blocks: seq<Block>)
    requires AllShaped(db) && Unique(db) && Ledgers(db)
    requires DistinctKeys(blocks) && AllFit(db, blocks) && ApplyAll(db, blocks).Ok?
    ensures var next := ApplyAll(db, blocks).value;
            AllShaped(next) && Unique(next) && Ledgers(next) && Evolves(db, next)
    decreases |blocks|
  {
    if blocks == [] {
      forall k | k in db.rows ensures Follows(k.kind, db.rows[k], db.rows[k]) {}
    } else {
      var mid := ApplyBlock(db, blocks[0]).value;
      assert Fits(db, blocks[0]);
      BlockKeepsShape(db, blocks[0]);
      BlockKeepsUnique(db, blocks[0]);
      BlockKeepsLedgers(db, blocks[0]);
      BlockEvolves(db, blocks[0]);
      RestStillFits(db, blocks);
      TransactionKeeps(mid, blocks[1..]);
      EvolvesTransitive(db, mid, ApplyAll(mid, blocks[1..]).value);
    }
  }

  lemma {:induction false} RowUntouched(db: Db, blocks: seq<Block>, k: Key)
    requires ApplyAll(db, blocks).Ok? && !WritesKey(blocks, k)
    ensures k in ApplyAll(db, blocks).value.rows <==> k in db.rows
    ensures k in db.rows ==> ApplyAll(db, blocks).value.rows[k] == db.rows[k]
    decreases |blocks|
  {
    if blocks == [] {
    } else {
      BlockFrame(db, blocks[0]);
      WritesKeySplit(blocks, k);
      RowUntouched(ApplyBlock(db, blocks[0]).value, blocks[1..], k);
    }
  }

  /** The content a transaction leaves in a row it writes. */
  lemma {:induction false} RowAfter(db: Db, blocks: seq<Block>, i: nat)
    requires DistinctKeys(blocks) && ApplyAll(db, blocks).Ok? && i < |blocks|
    ensures var next, k := ApplyAll(db, blocks).value, blocks[i].key;
            && k in next.rows
            && (blocks[i].write.Insert? <==> k !in db.rows)
            && match blocks[i].write
               case Insert(row) => next.rows[k] == row
               case Save(_, row) => next.rows[k] == row.(code := db.rows[k].code, deleted := false)
               case Remove => next.rows[k] == db.rows[k].(deleted := true)
    decreases |blocks|
  {
    var mid := ApplyBlock(db, blocks[0]).value;
    var rest := blocks[1..];
    BlockFrame(db, blocks[0]);
    DistinctTail(blocks);
    if i > 0 {
      assert rest[i - 1] == blocks[i];
      assert blocks[0].key != blocks[i].key;
      RowAfter(mid, rest, i - 1);
    } else {
      HeadKeyOnce(blocks, blocks[0].key);
      RowUntouched(mid, rest, blocks[0].key);
    }
  }

  // ----------------------------------------------------------------- agreement is kept

  lemma OneBlockAgrees(db: Db, b: Block)
    requires Unique(db) && Agreeing(db) && Fits(db, b) && Solo(db, b) && ApplyAll(db, [b]).Ok?
    ensures Agreeing(ApplyAll(db, [b]).value)
  {
    assert ApplyAll(db, [b]) == ApplyBlock(db, b);
    SoloKeepsAgreeing(db, b);
  }

  /** Unfolding a transaction of two or three blocks. */
  lemma ApplyTwo(db: Db, blocks: seq<Block>)
    requires 2 <= |blocks| <= 3 && ApplyAll(db, blocks).Ok?
    ensures ApplyBlock(db, blocks[0]).Ok?
    ensures ApplyBlock(ApplyBlock(db, blocks[0]).value, blocks[1]).Ok?
    ensures var two := ApplyBlock(ApplyBlock(db, blocks[0]).value, blocks[1]).value;
            if |blocks| == 2 then ApplyAll(db, blocks) == Ok(two)
            else ApplyBlock(two, blocks[2]) == ApplyAll(db, blocks)
  {
    var mid := ApplyBlock(db, blocks[0]).value;
    var rest := blocks[1..];
    assert ApplyAll(db, blocks) == ApplyAll(mid, rest);
    assert rest[0] == blocks[1];
    var two := ApplyBlock(mid, rest[0]).value;
    assert ApplyAll(mid, rest) == ApplyAll(two, rest[1..]);
    if |blocks| == 3 {
      assert rest[1..] == [blocks[2]];
      assert ApplyAll(two, rest[1..]) == ApplyBlock(two, blocks[2]);
    } else {
      assert rest[1..] == [];
    }
  }

  lemma GateBlockAgrees(db: Db, b: Block)
    requires Unique(db) && Agreeing(db) && Fits(db, b) && b.key.kind == GateUnit && ApplyBlock(db, b).Ok?
    ensures Agreeing(ApplyBlock(db, b).value)
  {
    SoloKeepsAgreeing(db, b);
  }

  /** A block that stands alone, followed by at most one gate block. */
  lemma SoloThenGateAgrees(db: Db, blocks: seq<Block>)
    requires AllShaped(db) && Unique(db) && Ledgers(db) && Agreeing(db)
    requires 1 <= |blocks| <= 2 && DistinctKeys(blocks) && AllFit(db, blocks) && ApplyAll(db, blocks).Ok?
    requires Solo(db, blocks[0])
    requires |blocks| == 2 ==> blocks[1].key.kind == GateUnit
    ensures Agreeing(ApplyAll(db, blocks).value)
  {
    if |blocks| == 1 {
      assert blocks == [blocks[0]];
      OneBlockAgrees(db, blocks[0]);
    } else {
      ApplyTwo(db, blocks);
      var mid := ApplyBlock(db, blocks[0]).value;
      assert Fits(db, blocks[0]);
      SoloKeepsAgreeing(db, blocks[0]);
      BlockKeepsUnique(db, blocks[0]);
      RestStillFits(db, blocks);
      assert Fits(mid, blocks[1..][0]);
      GateBlockAgrees(mid, blocks[1]);
    }
  }

  /** The joint outcome, followed by at most one gate block. */
  lemma OutcomeThenGateAgrees(db: Db, blocks: seq<Block>)
    requires AllShaped(db) && Unique(db) && Ledgers(db) && Agreeing(db)
    requires 2 <= |blocks| <= 3 && DistinctKeys(blocks) && AllFit(db, blocks) && ApplyAll(db, blocks).Ok?
    requires JointOutcome(db, blocks[0], blocks[1])
    requires |blocks| == 3 ==> blocks[2].key.kind == GateUnit
    ensures Agreeing(ApplyAll(db, blocks).value)
  {
    ApplyTwo(db, blocks);
    var own, linked := blocks[0], blocks[1];
    assert Fits(db, own) && Fits(db, linked);
    OutcomeKeepsAgreeing(db, own, linked);
    if |blocks| == 3 {
      var mid := ApplyBlock(db, own).value;
      var two := ApplyBlock(mid, linked).value;
      BlockKeepsUnique(db, own);
      RestStillFits(db, blocks);
      var rest := blocks[1..];
      assert Fits(mid, rest[0]);
      BlockKeepsUnique(mid, linked);
      RestStillFits(mid, rest);
      assert Fits(two, rest[1..][0]);
      GateBlockAgrees(two, blocks[2]);
    }
  }

  lemma CreateAgrees(db: Db, o: Op, id: nat)
    requires Valid(db) && OpOk(db, o) && o.req.Create? && Effect(db, o, id).Ok?
    ensures Agreeing(Effect(db, o, id).value)
  {
    var blocks := Plan(o.req, o.caller, id, o.read).value;
    CommitFits(db, o, id, 0);
    if o.req.kind == ExecutionConfirmation {
      var d := o.read.directive.value;
      assert blocks[0].write.row.business.relatedCode == d.row.code == db.rows[d.key].code;
      assert Reaches(OperationDirective, Executing, db.rows[d.key].status);
    }
    assert Solo(db, blocks[0]);
    assert blocks == [blocks[0]];
    OneBlockAgrees(db, blocks[0]);
  }

  lemma UpdatePlanShape(req: Request, caller: Caller, id: nat, read: Reads)
    requires req.Update? && Plan(req, caller, id, read).Ok?
    ensures var blocks := Plan(req, caller, id, read).value;
            && blocks == [blocks[0]] && blocks[0].key == req.key && blocks[0].write.Save?
            && read.primary.Some? && blocks[0].write.row.status == read.primary.value.status
            && (req.key.kind == OperationDirective ==> read.primary.value.status == Draft)
  {
  }

  lemma DeletePlanShape(req: Request, caller: Caller, id: nat, read: Reads)
    requires req.Delete? && Plan(req, caller, id, read).Ok?
    ensures var blocks := Plan(req, caller, id, read).value;
            blocks == [blocks[0]] && blocks[0].key == req.key && blocks[0].write.Remove?
  {
  }

  /** A gate or directive transition completes no directive, and may then write a gate. */
  lemma TransitionPlanShape(req: Request, caller: Caller, id: nat, read: Reads)
    requires req.Transition? && req.key.kind != ExecutionConfirmation && Plan(req, caller, id, read).Ok? && Typed(read)
    ensures var blocks := Plan(req, caller, id, read).value;
            && 1 <= |blocks| <= 2 && blocks[0].key == req.key && blocks[0].write.Save?
            && (req.key.kind == OperationDirective ==> blocks[0].write.row.status != Completed)
            && (|blocks| == 2 ==> blocks[1].key.kind == GateUnit)
  {
  }

  lemma StatusKeptIsSolo(db: Db, b: Block)
    requires b.write.Save? && b.key in db.rows && b.write.row.status == db.rows[b.key].status
    requires b.key.kind == OperationDirective ==> b.write.row.status == Draft
    ensures Solo(db, b)
  {
  }

  lemma UpdateOrDeleteAgrees(db: Db, o: Op, id: nat)
    requires Valid(db) && OpOk(db, o) && (o.req.Update? || o.req.Delete?) && Effect(db, o, id).Ok?
    ensures Agreeing(Effect(db, o, id).value)
  {
    hide ApplyAll, Fits, OpOk, Agreeing, Unique;
    CommitFits(db, o, id, 0);
    if o.req.Update? {
      UpdatePlanShape(o.req, o.caller, id, o.read);
      SaveOverwritesItsSource(db, o, id, 0);
      StatusKeptIsSolo(db, Plan(o.req, o.caller, id, o.read).value[0]);
    } else {
      DeletePlanShape(o.req, o.caller, id, o.read);
    }
    OneBlockAgrees(db, Plan(o.req, o.caller, id, o.read).value[0]);
  }

  lemma GateOrDirectiveTransitionAgrees(db: Db, o: Op, id: nat)
    requires Valid(db) && OpOk(db, o) && o.req.Transition? && o.req.key.kind != ExecutionConfirmation
    requires Effect(db, o, id).Ok? && AllFit(db, Plan(o.req, o.caller, id, o.read).value)
    requires DistinctKeys(Plan(o.req, o.caller, id, o.read).value)
    ensures Agreeing(Effect(db, o, id).value)
  {
    TransitionPlanShape(o.req, o.caller, id, o.read);
    SoloThenGateAgrees(db, Plan(o.req, o.caller, id, o.read).value);
  }

  /** Ending a pending confirmation writes the confirmation, its executing
      directive, and then at most the gate; any other move writes one row. */
  lemma ConfirmationPlanShape(req: Request, caller: Caller, current: Row, read: Reads)
    requires req.Transition? && req.key.kind == ExecutionConfirmation && Coupled(req, read)
    requires PlanConfirmationTransition(req, caller, current, read).Ok?
    ensures var blocks := PlanConfirmationTransition(req, caller, current, read).value;
            && blocks[0].key == req.key && blocks[0].write.Save?
            && if current.status != Pending then |blocks| == 1
               else
                 && 2 <= |blocks| <= 3 && read.directive.Some? && read.directive.value.row.status == Executing
                 && blocks[1].key == read.directive.value.key && blocks[1].write.Save?
                 && Agree(blocks[0].write.row.status, blocks[1].write.row.status)
                 && (|blocks| == 3 ==> blocks[2].key.kind == GateUnit)
  {
    var to := Parse(TrimSpace(req.target)).value;
    EdgeDescends(ExecutionConfirmation, current.status, to);
  }

  lemma ConfirmationTransitionAgrees(db: Db, o: Op, id: nat)
    requires Valid(db) && OpOk(db, o) && o.req.Transition? && o.req.key.kind == ExecutionConfirmation
    requires Effect(db, o, id).Ok?
    ensures Agreeing(Effect(db, o, id).value)
  {
    var blocks := Plan(o.req, o.caller, id, o.read).value;
    PlanDocumented(o.req, o.caller, id, o.read);
    forall i | 0 <= i < |blocks| ensures Fits(db, blocks[i]) { CommitFits(db, o, id, i); }
    OwnBlockFirst(o.req, o.caller, id, o.read);
    ConfirmationPlanShape(o.req, o.caller, o.read.primary.value, o.read);
    SaveOverwritesItsSource(db, o, id, 0);
    if o.read.primary.value.status != Pending {
      SoloThenGateAgrees(db, blocks);
    } else {
      SaveOverwritesItsSource(db, o, id, 1);
      PendingPairIsJoint(db, o, blocks[0], blocks[1]);
      OutcomeThenGateAgrees(db, blocks);
    }
  }

  lemma PendingPairIsJoint(db: Db, o: Op, own: Block, linked: Block)
    requires !o.req.Create? && o.req.key.kind == ExecutionConfirmation && Coupled(o.req, o.read)
    requires own.write.Save? && linked.write.Save? && own.key == o.req.key
    requires o.read.directive.Some? && linked.key == o.read.directive.value.key
    requires own.key in db.rows && o.read.primary == Some(db.rows[own.key]) && db.rows[own.key].status == Pending
    requires linked.key in db.rows && SourceOf(o.req, o.read, linked.key) == Some(db.rows[linked.key])
    requires o.read.directive.value.row.status == Executing
    requires Agree(own.write.row.status, linked.write.row.status)
    ensures JointOutcome(db, own, linked)
  {
  }

  /** One commit keeps every invariant and moves every row along its lifecycle. */
  lemma CommitKeeps(db: Db, o: Op, id: nat)
    requires Valid(db) && OpOk(db, o) && Effect(db, o, id).Ok?
    ensures Valid(Effect(db, o, id).value) && Evolves(db, Effect(db, o, id).value)
  {
    var blocks := Plan(o.req, o.caller, id, o.read).value;
    PlanDocumented(o.req, o.caller, id, o.read);
    forall i | 0 <= i < |blocks| ensures Fits(db, blocks[i]) { CommitFits(db, o, id, i); }
    TransactionKeeps(db, blocks);
    match o.req
    case Create(_, _, _, _, _) => CreateAgrees(db, o, id);
    case Transition(_, _, _, _) =>
      if o.req.key.kind == ExecutionConfirmation { ConfirmationTransitionAgrees(db, o, id); }
      else { GateOrDirectiveTransitionAgrees(db, o, id); }
    case _ => UpdateOrDeleteAgrees(db, o, id);
  }

  // ---------------------------------------------------------------------------- runs

  lemma ValidIsUnique(db: Db)
    requires Valid(db)
    ensures AllShaped(db) && Unique(db) && Ledgers(db)
  {
  }

  lemma ValidIsShaped(db: Db)
    requires Valid(db)
    ensures AllShaped(db)
  {
  }

  lemma EvolvesReflexive(db: Db)
    ensures Evolves(db, db)
  {
  }

  lemma StepSound(w: World, e: Event)
    requires Sound(w) && HonestEvent(w, e)
    ensures Sound(Next(w, e)) && Evolves(w.db, Next(w, e).db)
  {
    hide Valid, Plan, ApplyAll, ReadNext;
    EvolvesReflexive(w.db);
    match e
    case Begin(_, _, _) =>
    case Read(op) =>
      if op in w.ops && w.ops[op].stage < STAGES {
        ValidIsShaped(w.db);
        ReadKeepsOpOk(w.db, w.ops[op]);
      }
    case Commit(op, id) =>
      if Succeeds(w, e) {
        CommitKeeps(w.db, w.ops[op], id);
        forall p | p in Next(w, e).ops ensures OpOk(Next(w, e).db, w.ops[p]) {
          OpOkEvolves(w.db, Next(w, e).db, w.ops[p]);
        }
      }
  }

  lemma HonestPrefix(w: World, events: seq<Event>, n: nat)
    requires HonestRun(w, events) && n <= |events|
    ensures HonestRun(w, events[..n])
  {
    forall i | 0 <= i < n ensures HonestEvent(Run(w, events[..n][..i]), events[..n][i]) {
      assert events[..n][..i] == events[..i];
    }
  }

  /** Safety over whole runs: shapes, unique codes, the approval ledger and the
      agreement of confirmations and directives hold in every state an honest
      interleaved run reaches, and every row follows its lifecycle. */
  lemma {:induction false} RunSound(w: World, events: seq<Event>)
    requires Sound(w) && HonestRun(w, events)
    ensures Sound(Run(w, events)) && Evolves(w.db, Run(w, events).db)
    decreases |events|
  {
    if events == [] {
      EvolvesReflexive(w.db);
    } else {
      var n := |events| - 1;
      HonestPrefix(w, events, n);
      RunSound(w, events[..n]);
      assert HonestEvent(Run(w, events[..n]), events[n]);
      StepSound(Run(w, events[..n]), events[n]);
      EvolvesTransitive(w.db, Run(w, events[..n]).db, Run(w, events).db);
    }
  }

  /** Between any two points of an honest run every row evolves along its lifecycle. */
  lemma RunSegment(w: World, events: seq<Event>, i: nat, j: nat)
    requires Sound(w) && HonestRun(w, events) && i <= j <= |events|
    ensures Sound(Run(w, events[..i])) && Sound(Run(w, events[..j]))
    ensures Evolves(Run(w, events[..i]).db, Run(w, events[..j]).db)
    decreases j - i
  {
    HonestPrefix(w, events, j);
    RunSound(w, events[..j]);
    HonestPrefix(w, events, i);
    RunSound(w, events[..i]);
    if i < j {
      RunSegment(w, events, i, j - 1);
      RunPrefix(w, events, j - 1);
      assert HonestEvent(Run(w, events[..j - 1]), events[j - 1]);
      StepSound(Run(w, events[..j - 1]), events[j - 1]);
      EvolvesTransitive(Run(w, events[..i]).db, Run(w, events[..j - 1]).db, Run(w, events[..j]).db);
    } else {
      EvolvesReflexive(Run(w, events[..i]).db);
    }
  }
}
