/** Every commit has a decision point: a moment after its handler began, at which the
    whole handler, run in one step on the state stored then, would have read the same
    rows and stored the same ones. */
module DecisionPoints {
  import opened Outcomes
  import opened Text
  import opened Records
  import opened Transactions
  import opened Handlers
  import opened Interleaving
  import opened Versions
  import opened Snapshots
  import opened Lifecycle
  import opened Validity
  import opened Reachability
  import opened Refinement

  // --------------------------------------------------------------- when rows were read

  ghost function DbAt(w: World, events: seq<Event>, t: nat): Db
    requires t <= |events|
  {
    Run(w, events[..t]).db
  }

  /** Handler `op` has been in flight since time `t` of the run. */
  ghost predicate InFlightSince(w: World, events: seq<Event>, op: nat, t: nat) {
    forall m :: t <= m <= |events| ==> op in Run(w, events[..m]).ops
  }

  /** What handler `o` has read was stored at these times. */
  ghost predicate ReadFrom(o: Op, own: Db, linked: Db, gated: Db) {
    && (o.stage >= 1 ==> o.read.primary == if o.req.Create? then None else Get(own, o.req.key))
    && (o.stage >= 2 ==> o.read.directive == Lookup(linked, OperationDirective, DirectiveCode(o.req, o.read)))
    && (o.stage >= 3 ==>
          && o.read.gate == Lookup(gated, GateUnit, GateCode(o.req, o.read))
          && o.read.existing == CountedIn(gated, o))
  }

  ghost function CountedIn(db: Db, o: Op): nat {
    if o.req.Create? && o.read.directive.Some? then |LiveConfirmations(db, o.read.directive.value.row.code)| else 0
  }

  /** The reads of handler `op` are these events. */
  predicate ReadEvents(events: seq<Event>, op: nat, stage: nat, t0: nat, t1: nat, t2: nat) {
    && (stage >= 1 ==> t0 < |events| && events[t0] == Read(op))
    && (stage >= 2 ==> t1 < |events| && events[t1] == Read(op))
    && (stage >= 3 ==> t2 < |events| && events[t2] == Read(op))
  }

  lemma ReadNextReadFrom(o: Op, own: Db, linked: Db, gated: Db, now: Db)
    requires ReadFrom(o, own, linked, gated) && o.stage < STAGES
    ensures ReadFrom(o.(read := ReadNext(now, o.req, o.read, o.stage), stage := o.stage + 1),
                     if o.stage == 0 then now else own, if o.stage <= 1 then now else linked, now)
  {
  }

  lemma ShorterRun(w: World, events: seq<Event>, n: nat, op: nat, t: nat)
    requires t <= n <= |events|
    ensures DbAt(w, events[..n], t) == DbAt(w, events, t)
    ensures n + 1 == |events| && InFlightSince(w, events[..n], op, t) && op in Run(w, events).ops ==>
        InFlightSince(w, events, op, t)
  {
    assert events[..n][..t] == events[..t];
    if n + 1 == |events| && InFlightSince(w, events[..n], op, t) && op in Run(w, events).ops {
      forall m | t <= m <= |events| ensures op in Run(w, events[..m]).ops {
        if m <= n { assert events[..n][..m] == events[..m]; } else { assert events[..m] == events; }
      }
    }
  }

  /** A handler that began during the run has read its rows, in order, from states
      stored while it was in flight. */
  lemma {:induction false} ReadTimes(w: World, events: seq<Event>, op: nat) returns (t0: nat, t1: nat, t2: nat)
    requires op !in w.ops && op in Run(w, events).ops
    ensures t0 <= t1 <= t2 <= |events| && InFlightSince(w, events, op, t0)
    ensures ReadFrom(Run(w, events).ops[op], DbAt(w, events, t0), DbAt(w, events, t1), DbAt(w, events, t2))
    ensures ReadEvents(events, op, Run(w, events).ops[op].stage, t0, t1, t2)
    decreases |events|
  {
    hide ReadFrom, ReadNext, Plan, ApplyAll, Effect;
    var n := |events| - 1;
    var before := Run(w, events[..n]);
    if op !in before.ops {
      t0, t1, t2 := n + 1, n + 1, n + 1;
      assert events[..n + 1] == events;
      NothingReadYet(events[n].req, events[n].caller, DbAt(w, events, n + 1));
    } else {
      t0, t1, t2 := ReadTimes(w, events[..n], op);
      ShorterRun(w, events, n, op, t0);
      ShorterRun(w, events, n, op, t1);
      ShorterRun(w, events, n, op, t2);
      var o := before.ops[op];
      if events[n] == Read(op) && o.stage < STAGES {
        ReadNextReadFrom(o, DbAt(w, events, t0), DbAt(w, events, t1), DbAt(w, events, t2), before.db);
        if o.stage == 0 {
          t0, t1 := n, n;
          ShorterRun(w, events, n, op, n);
          assert events[..n][..n] == events[..n];
        } else if o.stage == 1 {
          t1 := n;
        }
        t2 := n;
      }
    }
  }

  lemma NothingReadYet(req: Request, caller: Caller, db: Db)
    ensures ReadFrom(Op(req, caller, NOTHING_READ, 0), db, db, db)
  {
  }

  // --------------------------------------------------------- reading at an earlier time

  /** A row that still holds what was read has held it all the time in between. */
  lemma HeldInBetween(read: Row, mid: Row, now: Row)
    requires Newer(read, mid) && Newer(mid, now) && now == read && !read.deleted
    ensures mid == read
  {
  }

  /** The rows a commit saves held, at an earlier time `a` after their reading, what the
      handler has read. */
  lemma SourceHeld(own: Db, a: Db, b: Db, o: Op, id: nat, i: nat)
    requires OpOk(b, o) && Effect(b, o, id).Ok? && Grows(own, a) && Grows(a, b)
    requires i < |Plan(o.req, o.caller, id, o.read).value| && Plan(o.req, o.caller, id, o.read).value[i].write.Save?
    requires var k := Plan(o.req, o.caller, id, o.read).value[i].key;
             LiveAt(own, k) && SourceOf(o.req, o.read, k) == Some(own.rows[k])
    ensures var k := Plan(o.req, o.caller, id, o.read).value[i].key;
            LiveAt(a, k) && SourceOf(o.req, o.read, k) == Some(a.rows[k])
  {
    hide Plan, ApplyAll, OpOk;
    SaveOverwritesItsSource(b, o, id, i);
    var k := Plan(o.req, o.caller, id, o.read).value[i].key;
    HeldInBetween(own.rows[k], a.rows[k], b.rows[k]);
  }

  lemma OwnRowHeld(own: Db, a: Db, b: Db, o: Op, id: nat)
    requires OpOk(b, o) && Effect(b, o, id).Ok? && Versioned(o.req) && Grows(own, a) && Grows(a, b)
    requires Get(own, o.req.key) == o.read.primary
    ensures Get(a, o.req.key) == o.read.primary
  {
    hide ApplyAll, OpOk;
    OwnBlockFirst(o.req, o.caller, id, o.read);
    SourceHeld(own, a, b, o, id, 0);
  }

  /** The directive of a receipt is written, and so has held what was read. */
  lemma DirectiveHeld(linked: Db, a: Db, b: Db, o: Op, id: nat)
    requires OpOk(b, o) && Addressed(o) && Effect(b, o, id).Ok? && o.req.Transition? && o.read.directive.Some?
    requires Grows(linked, a) && Grows(a, b)
    requires o.read.directive == Lookup(linked, OperationDirective, DirectiveCode(o.req, o.read))
    ensures var d := o.read.directive.value; LiveAt(a, d.key) && a.rows[d.key] == d.row
  {
    hide ApplyAll, Follows;
    OwnBlockFirst(o.req, o.caller, id, o.read);
    ConfirmationPlanShape(o.req, o.caller, o.read.primary.value, o.read);
    SourceHeld(linked, a, b, o, id, 1);
  }

  /** A transition, or an edit of a gate or a directive, would have read the same at the
      time it read its gate. */
  lemma RereadAtGate(own: Db, linked: Db, a: Db, b: Db, o: Op, id: nat)
    requires OpOk(b, o) && Addressed(o) && Effect(b, o, id).Ok? && o.stage == STAGES && ReadFrom(o, own, linked, a)
    requires Grows(own, a) && Grows(linked, a) && Grows(a, b) && Unique(a)
    requires !o.req.Delete? && (o.req.Transition? || KindOf(o.req) != ExecutionConfirmation)
    ensures ReadAll(a, o.req) == o.read
  {
    hide Plan, ApplyAll, Follows, Unique, Canon, Grows;
    var one := ReadNext(a, o.req, NOTHING_READ, 0);
    if !o.req.Create? { OwnRowHeld(own, a, b, o, id); }
    assert one.primary == o.read.primary;
    var two := ReadNext(a, o.req, one, 1);
    assert two.directive == o.read.directive by {
      assert DirectiveCode(o.req, one) == DirectiveCode(o.req, o.read);
      if o.read.directive.Some? {
        DirectiveHeld(linked, a, b, o, id);
        FindsByCode(a, o.read.directive.value.key, DirectiveCode(o.req, o.read).value);
      } else {
        PlanFoundItsLinks(o, id);
      }
    }
    assert GateCode(o.req, two) == GateCode(o.req, o.read);
  }

  /** An edit of a confirmation would have read the same at the time it read its
      directive. */
  lemma RereadAtDirective(own: Db, a: Db, gated: Db, b: Db, o: Op, id: nat)
    requires OpOk(b, o) && Addressed(o) && Effect(b, o, id).Ok? && o.stage == STAGES && ReadFrom(o, own, a, gated)
    requires Grows(own, a) && Evolves(a, b)
    requires (o.req.Create? || o.req.Update?) && KindOf(o.req) == ExecutionConfirmation
    ensures ReadAll(a, o.req) == o.read
  {
    hide Plan, ApplyAll, Follows;
    var one := ReadNext(a, o.req, NOTHING_READ, 0);
    if !o.req.Create? { OwnRowHeld(own, a, b, o, id); }
    assert one.primary == o.read.primary;
    var two := ReadNext(a, o.req, one, 1);
    assert two.directive == o.read.directive by {
      assert DirectiveCode(o.req, one) == DirectiveCode(o.req, o.read);
    }
    PlanFoundItsLinks(o, id);
    if o.req.Create? { NoneToCountBefore(a, b, o, id); }
  }

  lemma NoneToCountBefore(a: Db, b: Db, o: Op, id: nat)
    requires o.req.Create? && o.req.kind == ExecutionConfirmation && InFlight(b, o) && Coupled(o.req, o.read)
    requires Effect(b, o, id).Ok? && Evolves(a, b)
    ensures o.read.directive.Some? && LiveConfirmations(a, o.read.directive.value.row.code) == {}
  {
    InsertIsNew(b, o, id);
    var block := Plan(o.req, o.caller, id, o.read).value[0];
    var code := o.read.directive.value.row.code;
    assert block.write.row.business.relatedCode == code == Canon(code);
    assert ApplyBlock(b, block).Ok?;
    assert !LinkTaken(b.rows, code);
    forall k | k in a.rows && k.kind == ExecutionConfirmation ensures a.rows[k].business.relatedCode != code {
      assert Follows(k.kind, a.rows[k], b.rows[k]);
    }
  }

  // ---------------------------------------------------------- storing at an earlier time

  /** `a` holds no row, no code, no link and no approval that `b` does not hold. */
  ghost predicate Within(a: Db, b: Db) {
    && (forall k :: k in a.rows ==> k in b.rows && a.rows[k].code == b.rows[k].code)
    && (forall k :: k in a.rows && k.kind == ExecutionConfirmation ==>
          a.rows[k].business.relatedCode == b.rows[k].business.relatedCode)
    && (forall x :: x in a.approvals ==> x in b.approvals)
  }

  lemma EarlierIsWithin(a: Db, b: Db)
    requires Evolves(a, b)
    ensures Within(a, b)
  {
    forall k | k in a.rows ensures k in b.rows && a.rows[k].code == b.rows[k].code
        && Follows(k.kind, a.rows[k], b.rows[k]) {
      assert Newer(a.rows[k], b.rows[k]);
    }
  }

  /** The rows of a block that `b` stores are as good for it in `a`. */
  predicate SameTarget(a: Db, b: Db, block: Block) {
    match block.write
    case Insert(_) => true
    case Save(_, _) => LiveAt(a, block.key) && block.key in b.rows && a.rows[block.key] == b.rows[block.key]
    case Remove => LiveAt(a, block.key)
  }

  lemma BlockWithin(a: Db, b: Db, block: Block)
    requires Within(a, b) && ApplyBlock(b, block).Ok? && SameTarget(a, b, block)
    ensures ApplyBlock(a, block).Ok? && Within(ApplyBlock(a, block).value, ApplyBlock(b, block).value)
  {
    if block.write.Insert? { InsertIsFresh(b, block); }
    BlockFrame(b, block);
    if block.approval.Some? && StageTaken(a.approvals, block.approval.value) {
      var i :| 0 <= i < |a.approvals| && a.approvals[i].directive == block.approval.value.directive
               && a.approvals[i].stage == block.approval.value.stage;
      assert a.approvals[i] in b.approvals;
    }
    if ApplyBlock(a, block).Ok? { BlockFrame(a, block); }
  }

  lemma {:induction false} TransactionWithin(a: Db, b: Db, blocks: seq<Block>)
    requires Within(a, b) && DistinctKeys(blocks) && ApplyAll(b, blocks).Ok?
    requires forall i :: 0 <= i < |blocks| ==> SameTarget(a, b, blocks[i])
    ensures ApplyAll(a, blocks).Ok?
    decreases |blocks|
  {
    if blocks == [] {
    } else {
      var rest := blocks[1..];
      BlockWithin(a, b, blocks[0]);
      BlockFrame(a, blocks[0]);
      BlockFrame(b, blocks[0]);
      DistinctTail(blocks);
      var nextA, nextB := ApplyBlock(a, blocks[0]).value, ApplyBlock(b, blocks[0]).value;
      forall i | 0 <= i < |rest| ensures SameTarget(nextA, nextB, rest[i]) {
        assert rest[i] == blocks[i + 1] && blocks[0].key != blocks[i + 1].key;
        assert SameTarget(a, b, blocks[i + 1]);
      }
      TransactionWithin(nextA, nextB, rest);
    }
  }

  // ------------------------------------------------------------------ the decision point

  /** In state `a` the whole handler would have read what it has read, and would have
      stored the same rows and added the same entries as its commit from `before` to
      `after`; a deletion leaves a tombstone in both. */
  ghost predicate Decided(a: Db, before: Db, after: Db, o: Op, id: nat) {
    && ReadAll(a, o.req) == o.read
    && Atomic(a, o.req, o.caller, id).Ok?
    && var atomic := Atomic(a, o.req, o.caller, id).value;
       && (forall k :: Touched(before, after, k) ==>
             k in atomic.rows && if o.req.Delete? then atomic.rows[k].deleted
                 && after.rows[k].deleted else atomic.rows[k] == after.rows[k])
       && |a.audits| <= |atomic.audits| && |before.audits| <= |after.audits|
       && atomic.audits[|a.audits|..] == after.audits[|before.audits|..]
       && |a.approvals| <= |atomic.approvals| && |before.approvals| <= |after.approvals|
       && atomic.approvals[|a.approvals|..] == after.approvals[|before.approvals|..]
  }

  lemma SourceIsStored(a: Db, req: Request, k: Key)
    requires SourceOf(req, ReadAll(a, req), k).Some?
    ensures LiveAt(a, k) && SourceOf(req, ReadAll(a, req), k) == Some(a.rows[k])
  {
  }

  lemma RemovesOwnRow(req: Request, caller: Caller, id: nat, read: Reads, i: nat)
    requires Plan(req, caller, id, read).Ok? && i < |Plan(req, caller, id, read).value|
    requires Plan(req, caller, id, read).value[i].write.Remove?
    ensures !req.Create? && Plan(req, caller, id, read).value[i].key == req.key && read.primary.Some?
  {
    hide Tidy, CopyFrom, ValidFields, TrimSpace, Canon, EqualFold, Logged;
  }

  lemma TargetsAreSame(a: Db, b: Db, o: Op, id: nat, i: nat)
    requires OpOk(b, o) && Effect(b, o, id).Ok? && ReadAll(a, o.req) == o.read
    requires i < |Plan(o.req, o.caller, id, o.read).value|
    ensures SameTarget(a, b, Plan(o.req, o.caller, id, o.read).value[i])
  {
    hide Plan, ApplyAll, OpOk;
    var block := Plan(o.req, o.caller, id, o.read).value[i];
    match block.write
    case Insert(_) =>
    case Save(_, _) =>
      SaveOverwritesItsSource(b, o, id, i);
      SourceIsStored(a, o.req, block.key);
    case Remove => RemovesOwnRow(o.req, o.caller, id, o.read, i);
  }

  lemma RowsAreSame(a: Db, b: Db, blocks: seq<Block>, i: nat)
    requires DistinctKeys(blocks) && ApplyAll(a, blocks).Ok? && ApplyAll(b, blocks).Ok? && i < |blocks|
    requires Within(a, b)
    ensures var k := blocks[i].key;
            && k in ApplyAll(a, blocks).value.rows && k in ApplyAll(b, blocks).value.rows
            && var x, y := ApplyAll(a, blocks).value.rows[k], ApplyAll(b, blocks).value.rows[k];
               if blocks[i].write.Remove? then x.deleted && y.deleted else x == y
  {
    hide ApplyAll;
    RowAfter(a, blocks, i);
    RowAfter(b, blocks, i);
  }

  lemma DecidedAt(a: Db, b: Db, o: Op, id: nat)
    requires Evolves(a, b) && OpOk(b, o) && Effect(b, o, id).Ok? && ReadAll(a, o.req) == o.read
    ensures Decided(a, b, Effect(b, o, id).value, o, id)
  {
    hide Plan, ApplyAll, OpOk, ReadAll, Evolves;
    var blocks := Plan(o.req, o.caller, id, o.read).value;
    assert InFlight(b, o) by { OpOkInFlight(b, o); }
    PlanDocumented(o.req, o.caller, id, o.read);
    forall i | 0 <= i < |blocks| ensures SameTarget(a, b, blocks[i]) { TargetsAreSame(a, b, o, id, i); }
    EarlierIsWithin(a, b);
    TransactionWithin(a, b, blocks);
    TransactionLogs(a, blocks);
    TransactionLogs(b, blocks);
    TransactionEnters(a, blocks);
    TransactionEnters(b, blocks);
    var after := Effect(b, o, id).value;
    forall k | Touched(b, after, k)
      ensures k in ApplyAll(a, blocks).value.rows
      ensures var x, y := ApplyAll(a, blocks).value.rows[k], after.rows[k];
              if o.req.Delete? then x.deleted && y.deleted else x == y
    {
      TouchedIsWritten(b, o, id, k);
      var i :| 0 <= i < |blocks| && blocks[i].key == k;
      RemoveMeansDelete(o.req, o.caller, id, o.read, i);
      RowsAreSame(a, b, blocks, i);
    }
  }

  lemma OpOkInFlight(db: Db, o: Op)
    requires OpOk(db, o)
    ensures InFlight(db, o)
  {
  }

  /** A deletion would have read the same when it read its row. */
  lemma RereadAtOwn(a: Db, linked: Db, gated: Db, o: Op)
    requires o.req.Delete? && o.stage == STAGES && ReadFrom(o, a, linked, gated)
    ensures ReadAll(a, o.req) == o.read
  {
  }

  /** Serialisability in time: every successful commit of an honest run, deletions
      included, has a decision point in its handler's lifetime. */
  lemma CommitHasDecisionPoint(w: World, events: seq<Event>, i: nat) returns (j: nat)
    requires Sound(w) && AllAddressed(w) && HonestRun(w, events) && i < |events|
    requires Succeeds(Run(w, events[..i]), events[i]) && events[i].op !in w.ops
    ensures j <= i && InFlightSince(w, events[..i], events[i].op, j)
    ensures Decided(DbAt(w, events, j), DbAt(w, events, i), DbAt(w, events, i + 1),
                    Run(w, events[..i]).ops[events[i].op], events[i].id)
  {
    hide ReadFrom, Plan, ApplyAll, Decided, OpOk, ReadAll;
    var op, id := events[i].op, events[i].id;
    var o := Run(w, events[..i]).ops[op];
    var t0, t1, t2 := ReadTimes(w, events[..i], op);
    assert forall t :: 0 <= t <= i ==> events[..i][..t] == events[..t];
    RunAddressed(w, events[..i]);
    RunPrefix(w, events, i);
    var b := DbAt(w, events, i);
    if o.req.Delete? {
      j := t0;
      RereadAtOwn(DbAt(w, events, t0), DbAt(w, events, t1), DbAt(w, events, t2), o);
    } else if o.req.Transition? || KindOf(o.req) != ExecutionConfirmation {
      j := t2;
      RunSegment(w, events, t0, t2);
      RunSegment(w, events, t1, t2);
      RunSegment(w, events, t2, i);
      RereadAtGate(DbAt(w, events, t0), DbAt(w, events, t1), DbAt(w, events, t2), b, o, id);
    } else {
      j := t1;
      RunSegment(w, events, t0, t1);
      RunSegment(w, events, t1, i);
      RereadAtDirective(DbAt(w, events, t0), DbAt(w, events, t1), DbAt(w, events, t2), b, o, id);
    }
    RunSegment(w, events, j, i);
    DecidedAt(DbAt(w, events, j), b, o, id);
  }
}
