/** Interleaved commits are serialisable: on every row it writes, a commit does what
    the handler would have done by reading and committing in one step. */
module Refinement {
  import opened Outcomes
  import opened Text
  import opened Records
  import opened Transactions
  import opened Handlers
  import opened Interleaving
  import opened Versions
  import opened Snapshots
  import opened Lifecycle
  import opened Validity
  import opened Reachability

  // ----------------------------------------------------------- snapshots are addressed

  /** Linked snapshots were found under the codes the handler looks up. */
  predicate Addressed(o: Op) {
    && (o.stage == 0 ==> o.read == NOTHING_READ)
    && (o.stage <= 1 ==> o.read.directive.None?)
    && (o.stage <= 2 ==> o.read.gate.None?)
    && (KindOf(o.req) != ExecutionConfirmation || !o.req.Create? ==> o.read.existing == 0)
    && (o.read.directive.Some? ==>
          var code := DirectiveCode(o.req, o.read);
          code.Some? && o.read.directive.value.row.code == Canon(code.value))
    && (o.read.gate.Some? ==>
          var code := GateCode(o.req, o.read);
          code.Some? && o.read.gate.value.row.code == Canon(code.value))
  }

  predicate AllAddressed(w: World) {
    forall op :: op in w.ops ==> Addressed(w.ops[op])
  }

  lemma StepAddressed(w: World, e: Event)
    requires AllAddressed(w)
    ensures AllAddressed(Next(w, e))
  {
  }

  lemma {:induction false} RunAddressed(w: World, events: seq<Event>)
    requires AllAddressed(w)
    ensures AllAddressed(Run(w, events))
    decreases |events|
  {
    if events == [] {
    } else {
      RunAddressed(w, events[..|events| - 1]);
      StepAddressed(Run(w, events[..|events| - 1]), events[|events| - 1]);
    }
  }

  // ------------------------------------------------------------------------ rewinding

  /** The stored state with the linked rows put back to what handler `o` read. */
  function Rewind(db: Db, read: Reads): Db {
    var one := if read.directive.Some? then db.rows[read.directive.value.key := read.directive.value.row] else db.rows;
    var two := if read.gate.Some? then one[read.gate.value.key := read.gate.value.row] else one;
    db.(rows := two)
  }

  /** Two states that no unique index can tell apart and that agree on rows `keys`. */
  ghost predicate Alike(a: Db, b: Db, keys: set<Key>) {
    && a.approvals == b.approvals && a.audits == b.audits
    && a.rows.Keys == b.rows.Keys
    && (forall k :: k in a.rows ==> a.rows[k].code == b.rows[k].code)
    && (forall k :: k in a.rows && k.kind == ExecutionConfirmation ==>
          a.rows[k].business.relatedCode == b.rows[k].business.relatedCode)
    && (forall k :: k in a.rows && k in keys ==> a.rows[k] == b.rows[k])
  }

  lemma InsertAlike(a: Db, b: Db, keys: set<Key>, k: Key, row: Row)
    requires Alike(a, b, keys)
    ensures InsertRow(a.rows, k, row).Ok? <==> InsertRow(b.rows, k, row).Ok?
  {
  }

  lemma BlockAlike(a: Db, b: Db, keys: set<Key>, block: Block)
    requires Alike(a, b, keys) && block.key in keys && ApplyBlock(b, block).Ok?
    ensures ApplyBlock(a, block).Ok?
    ensures Alike(ApplyBlock(a, block).value, ApplyBlock(b, block).value, keys)
  {
    if block.write.Insert? { InsertAlike(a, b, keys, block.key, block.write.row); }
    BlockFrame(b, block);
    if ApplyBlock(a, block).Ok? { BlockFrame(a, block); }
  }

  lemma {:induction false} TransactionAlike(a: Db, b: Db, keys: set<Key>, blocks: seq<Block>)
    requires Alike(a, b, keys) && (forall i :: 0 <= i < |blocks| ==> blocks[i].key in keys)
    requires ApplyAll(b, blocks).Ok?
    ensures ApplyAll(a, blocks).Ok? && Alike(ApplyAll(a, blocks).value, ApplyAll(b, blocks).value, keys)
    decreases |blocks|
  {
    if blocks == [] {
    } else {
      BlockAlike(a, b, keys, blocks[0]);
      TransactionAlike(ApplyBlock(a, blocks[0]).value, ApplyBlock(b, blocks[0]).value, keys, blocks[1..]);
    }
  }

  /** The rows the plan of `o` writes. */
  function Written(blocks: seq<Block>): set<Key> {
    set i | 0 <= i < |blocks| :: blocks[i].key
  }

  /** Rewinding changes no key, no code and no confirmation. */
  lemma RewoundRow(db: Db, o: Op, k: Key)
    requires InFlight(db, o)
    ensures var rewound := Rewind(db, o.read);
            && rewound.rows.Keys == db.rows.Keys
            && (k in db.rows ==> rewound.rows[k].code == db.rows[k].code)
            && (k in db.rows && k.kind == ExecutionConfirmation ==> rewound.rows[k] == db.rows[k])
  {
    assert Rewind(db, o.read).rows.Keys == db.rows.Keys;
  }

  /** The rows that rewinding leaves as they are. */
  function Unrewound(db: Db, o: Op): set<Key>
    requires InFlight(db, o)
  {
    set k | k in db.rows && (k in Rewind(db, o.read).rows ==> Rewind(db, o.read).rows[k] == db.rows[k])
  }

  lemma SourceSurvivesRewind(db: Db, o: Op, k: Key)
    requires InFlight(db, o) && Coupled(o.req, o.read) && Addressed(o)
    requires k in db.rows && SourceOf(o.req, o.read, k) == Some(db.rows[k])
    ensures k in Rewind(db, o.read).rows && Rewind(db, o.read).rows[k] == db.rows[k]
  {
    RewoundRow(db, o, k);
  }

  lemma InsertIsNew(db: Db, o: Op, id: nat)
    requires o.req.Create? && Effect(db, o, id).Ok?
    ensures var blocks := Plan(o.req, o.caller, id, o.read).value;
            |blocks| == 1 && blocks[0].write.Insert? && blocks[0].key !in db.rows
  {
    var blocks := Plan(o.req, o.caller, id, o.read).value;
    assert blocks == [blocks[0]];
    assert ApplyBlock(db, blocks[0]).Ok?;
  }

  lemma WrittenRowUnchanged(db: Db, o: Op, id: nat, i: nat)
    requires OpOk(db, o) && Addressed(o) && Effect(db, o, id).Ok?
    requires i < |Plan(o.req, o.caller, id, o.read).value|
    ensures var k := Plan(o.req, o.caller, id, o.read).value[i].key;
            k in db.rows ==> k in Rewind(db, o.read).rows && Rewind(db, o.read).rows[k] == db.rows[k]
  {
    if o.req.Create? {
      InsertIsNew(db, o, id);
    } else if o.req.Delete? {
      assert Rewind(db, o.read) == db;
    } else {
      VersionedPlanSaves(o.req, o.caller, id, o.read, i);
      SaveOverwritesItsSource(db, o, id, i);
      SourceSurvivesRewind(db, o, Plan(o.req, o.caller, id, o.read).value[i].key);
    }
  }

  lemma VersionedPlanSaves(req: Request, caller: Caller, id: nat, read: Reads, i: nat)
    requires Versioned(req) && Plan(req, caller, id, read).Ok? && i < |Plan(req, caller, id, read).value|
    ensures Plan(req, caller, id, read).value[i].write.Save?
  {
    hide Tidy, CopyFrom, ValidFields, TrimSpace, Canon, EqualFold, Logged;
  }

  lemma RewoundIsAlike(db: Db, o: Op, id: nat)
    requires OpOk(db, o) && Addressed(o) && Effect(db, o, id).Ok?
    ensures Alike(Rewind(db, o.read), db, Unrewound(db, o) + Written(Plan(o.req, o.caller, id, o.read).value))
  {
    var rewound := Rewind(db, o.read);
    var blocks := Plan(o.req, o.caller, id, o.read).value;
    forall k | k in db.rows
      ensures k in rewound.rows && rewound.rows[k].code == db.rows[k].code
      ensures k.kind == ExecutionConfirmation ==> rewound.rows[k] == db.rows[k]
    {
      RewoundRow(db, o, k);
    }
    assert rewound.rows.Keys == db.rows.Keys by { RewoundRow(db, o, Key(GateUnit, 0)); }
    forall k | k in rewound.rows && k in Written(blocks) ensures rewound.rows[k] == db.rows[k] {
      var i :| 0 <= i < |blocks| && blocks[i].key == k;
      WrittenRowUnchanged(db, o, id, i);
    }
  }

  // ------------------------------------------------- re-reading the rewound state

  lemma FindsByCode(db: Db, k: Key, code: string)
    requires Unique(db) && HasCode(db, k, k.kind, code)
    ensures GetByCode(db, k.kind, code) == Some(Found(k, db.rows[k]))
  {
  }

  lemma RewoundIsUnique(db: Db, o: Op)
    requires Unique(db) && InFlight(db, o)
    ensures Unique(Rewind(db, o.read))
  {
    var rewound := Rewind(db, o.read);
    forall k | k in rewound.rows
      ensures k in db.rows && rewound.rows[k].code == db.rows[k].code
      ensures k.kind == ExecutionConfirmation ==> rewound.rows[k] == db.rows[k]
    {
      RewoundRow(db, o, k);
    }
  }

  /** A successful plan had found every linked row it looked up, and a new
      confirmation had counted none before it. */
  lemma PlanFoundItsLinks(o: Op, id: nat)
    requires Addressed(o) && Plan(o.req, o.caller, id, o.read).Ok?
    ensures !o.req.Create? ==> o.read.primary.Some?
    ensures DirectiveCode(o.req, o.read).Some? <==> o.read.directive.Some?
    ensures GateCode(o.req, o.read).Some? <==> o.read.gate.Some?
    ensures o.req.Create? && o.req.kind == ExecutionConfirmation ==> o.read.existing == 0
  {
  }

  lemma NoneToCount(db: Db, o: Op, id: nat)
    requires o.req.Create? && o.req.kind == ExecutionConfirmation && InFlight(db, o) && Coupled(o.req, o.read)
    requires Effect(db, o, id).Ok?
    ensures o.read.directive.Some? && LiveConfirmations(Rewind(db, o.read), o.read.directive.value.row.code) == {}
  {
    InsertIsNew(db, o, id);
    var b := Plan(o.req, o.caller, id, o.read).value[0];
    var code := o.read.directive.value.row.code;
    assert b.write.row.business.relatedCode == code == Canon(code);
    assert ApplyBlock(db, b).Ok?;
    assert !LinkTaken(db.rows, code);
    forall k | k in Rewind(db, o.read).rows && k.kind == ExecutionConfirmation
      ensures Rewind(db, o.read).rows[k].business.relatedCode != code
    {
      RewoundRow(db, o, k);
    }
  }

  /** In the rewound state the handler reads exactly what it read before. */
  lemma RereadsTheSame(db: Db, o: Op, id: nat)
    requires Unique(db) && OpOk(db, o) && Addressed(o) && Effect(db, o, id).Ok? && !o.req.Delete?
    ensures ReadAll(Rewind(db, o.read), o.req) == o.read
  {
    hide Plan, ApplyAll, Unique;
    var rewound := Rewind(db, o.read);
    PlanFoundItsLinks(o, id);
    RewoundIsUnique(db, o);
    var one := ReadNext(rewound, o.req, NOTHING_READ, 0);
    assert one.primary == o.read.primary by {
      if !o.req.Create? {
        OwnBlockFirst(o.req, o.caller, id, o.read);
        SaveOverwritesItsSource(db, o, id, 0);
        SourceSurvivesRewind(db, o, o.req.key);
      }
    }
    var two := ReadNext(rewound, o.req, one, 1);
    assert two.directive == o.read.directive by {
      assert DirectiveCode(o.req, one) == DirectiveCode(o.req, o.read);
      if o.read.directive.Some? {
        FindsByCode(rewound, o.read.directive.value.key, DirectiveCode(o.req, o.read).value);
      }
    }
    var three := ReadNext(rewound, o.req, two, 2);
    assert three.gate == o.read.gate by {
      assert GateCode(o.req, two) == GateCode(o.req, o.read);
      if o.read.gate.Some? {
        FindsByCode(rewound, o.read.gate.value.key, GateCode(o.req, o.read).value);
      }
    }
    if o.req.Create? && o.req.kind == ExecutionConfirmation { NoneToCount(db, o, id); }
  }

  // ------------------------------------------------------------------------ deletions

  /** A deletion is not checked against the row it read: it commits exactly when the
      row is still live, whatever became of it, and logs the status that was read. */
  lemma DeleteCommitsIffLive(db: Db, o: Op, id: nat)
    requires o.req.Delete? && Plan(o.req, o.caller, id, o.read).Ok?
    ensures Effect(db, o, id).Ok? <==> LiveAt(db, o.req.key)
    ensures Effect(db, o, id).Ok? ==>
      var next := Effect(db, o, id).value;
      && next.rows == db.rows[o.req.key := db.rows[o.req.key].(deleted := true)]
      && o.read.primary.Some?
      && next.audits == db.audits + [DeleteBlock(o.req.key, o.read.primary.value, o.caller).audit]
  {
    OneBlockEffect(db, o, id, DeleteBlock(o.req.key, o.read.primary.value, o.caller));
  }

  /** Only deletions remove rows. */
  lemma RemoveMeansDelete(req: Request, caller: Caller, id: nat, read: Reads, i: nat)
    requires Plan(req, caller, id, read).Ok? && i < |Plan(req, caller, id, read).value|
    ensures Plan(req, caller, id, read).value[i].write.Remove? <==> req.Delete?
  {
    hide Tidy, CopyFrom, ValidFields, TrimSpace, Canon, EqualFold, Logged;
  }

  /** A deletion finds the status it has read. */
  predicate DeletesWhatItRead(db: Db, o: Op) {
    o.req.Delete? ==>
      o.read.primary.Some? && o.req.key in db.rows && db.rows[o.req.key].status == o.read.primary.value.status
  }

  /** A deletion does what the one-step handler does if it finds the status it has
      read; otherwise that handler refuses, or logs another status. */
  lemma DeletionOutcome(db: Db, o: Op, id: nat)
    requires o.req.Delete? && Effect(db, o, id).Ok?
    ensures DeletesWhatItRead(db, o) ==> Atomic(db, o.req, o.caller, id) == Effect(db, o, id)
    ensures !DeletesWhatItRead(db, o) ==>
      var atomic := Atomic(db, o.req, o.caller, id);
      atomic.Err? || atomic.value.audits != Effect(db, o, id).value.audits
  {
    DeleteCommitsIffLive(db, o, id);
    var read := DeleteBlock(o.req.key, o.read.primary.value, o.caller);
    var stored := DeleteBlock(o.req.key, db.rows[o.req.key], o.caller);
    OneBlockEffect(db, o, id, read);
    assert ApplyBlock(db, read).value.audits[|db.audits|] == read.audit;
    var now := Op(o.req, o.caller, ReadAll(db, o.req), STAGES);
    if Plan(o.req, o.caller, id, now.read).Ok? {
      OneBlockEffect(db, now, id, stored);
      assert ApplyBlock(db, stored).value.audits[|db.audits|] == stored.audit;
    }
  }

  // ------------------------------------------------------------------- serialisability

  predicate NotRewound(db: Db, rewound: Db, k: Key) {
    k in rewound.rows && k in db.rows && rewound.rows[k] == db.rows[k]
  }

  /** Committing `o` in state `db` is what the one-step handler does on the state with
      the linked rows put back: it succeeds, extends ledger and log by the same entries,
      and stores the same content in every row the commit writes and in every row that
      was not put back. */
  ghost predicate Refines(db: Db, o: Op, id: nat)
    requires Effect(db, o, id).Ok?
  {
    var rewound := Rewind(db, o.read);
    var interleaved := Effect(db, o, id).value;
    && Atomic(rewound, o.req, o.caller, id).Ok?
    && var atomic := Atomic(rewound, o.req, o.caller, id).value;
       && atomic.approvals == interleaved.approvals && atomic.audits == interleaved.audits
       && atomic.rows.Keys == interleaved.rows.Keys
       && forall k :: k in interleaved.rows && (Touched(db, interleaved, k) || NotRewound(db, rewound, k)) ==>
            atomic.rows[k] == interleaved.rows[k]
  }

  lemma VersionedCommitRefines(db: Db, o: Op, id: nat)
    requires Unique(db) && OpOk(db, o) && Addressed(o) && Effect(db, o, id).Ok? && !o.req.Delete?
    ensures Refines(db, o, id)
  {
    var rewound := Rewind(db, o.read);
    var blocks := Plan(o.req, o.caller, id, o.read).value;
    var keys := Unrewound(db, o) + Written(blocks);
    RereadsTheSame(db, o, id);
    RewoundIsAlike(db, o, id);
    forall i | 0 <= i < |blocks| ensures blocks[i].key in keys {
      assert blocks[i].key in Written(blocks);
    }
    TransactionAlike(rewound, db, keys, blocks);
    var interleaved := Effect(db, o, id).value;
    forall k | k in interleaved.rows && (Touched(db, interleaved, k) || NotRewound(db, rewound, k))
      ensures k in keys
    {
      if Touched(db, interleaved, k) { TouchedIsWritten(db, o, id, k); } else { RewoundRow(db, o, k); }
    }
  }

  lemma DeletionRewindsNothing(db: Db, o: Op)
    requires o.req.Delete? && Addressed(o)
    ensures Rewind(db, o.read) == db
  {
  }

  /** Serialisability of one commit, exactly: every commit refines the one-step handler,
      but for a deletion that finds another status than it has read. */
  lemma CommitRefinesAtomicIff(db: Db, o: Op, id: nat)
    requires Unique(db) && OpOk(db, o) && Addressed(o) && Effect(db, o, id).Ok?
    ensures Refines(db, o, id) <==> DeletesWhatItRead(db, o)
  {
    if o.req.Delete? {
      hide Plan, ReadAll, ApplyAll;
      DeletionRewindsNothing(db, o);
      DeletionOutcome(db, o, id);
    } else {
      VersionedCommitRefines(db, o, id);
    }
  }

  lemma TouchedIsWritten(db: Db, o: Op, id: nat, k: Key)
    requires InFlight(db, o) && Effect(db, o, id).Ok? && Touched(db, Effect(db, o, id).value, k)
    ensures k in Written(Plan(o.req, o.caller, id, o.read).value)
  {
    var blocks := Plan(o.req, o.caller, id, o.read).value;
    PlanDocumented(o.req, o.caller, id, o.read);
    TransactionConserves(db, blocks, k);
    assert WritesKey(blocks, k);
    var i :| 0 <= i < |blocks| && blocks[i].key == k;
    assert blocks[i].key in Written(blocks);
  }

  /** When the linked rows a handler read are still the stored ones, committing is
      the same as running the whole handler in one step. */
  lemma UpToDateCommitIsAtomic(db: Db, o: Op, id: nat)
    requires Unique(db) && OpOk(db, o) && Addressed(o) && Effect(db, o, id).Ok? && !o.req.Delete?
    requires o.read.directive.Some? ==> db.rows[o.read.directive.value.key] == o.read.directive.value.row
    requires o.read.gate.Some? ==> db.rows[o.read.gate.value.key] == o.read.gate.value.row
    ensures Atomic(db, o.req, o.caller, id) == Effect(db, o, id)
  {
    hide Plan, ApplyAll, Unique;
    assert Rewind(db, o.read).rows == db.rows;
    assert Rewind(db, o.read) == db;
    RereadsTheSame(db, o, id);
  }

  /** A receipt that writes the gate has validated everything it read: its commit
      is the one-step handler, whatever happened between its reads. */
  lemma FullReceiptIsAtomic(db: Db, o: Op, id: nat)
    requires Unique(db) && OpOk(db, o) && Addressed(o) && Effect(db, o, id).Ok?
    requires o.req.Transition? && |Plan(o.req, o.caller, id, o.read).value| == 3
    ensures Atomic(db, o.req, o.caller, id) == Effect(db, o, id)
  {
    var blocks := Plan(o.req, o.caller, id, o.read).value;
    ThreeBlocksWriteBothLinks(o.req, o.caller, id, o.read);
    SaveOverwritesItsSource(db, o, id, 1);
    SaveOverwritesItsSource(db, o, id, 2);
    UpToDateCommitIsAtomic(db, o, id);
  }

  lemma ThreeBlocksWriteBothLinks(req: Request, caller: Caller, id: nat, read: Reads)
    requires req.Transition? && Plan(req, caller, id, read).Ok? && |Plan(req, caller, id, read).value| == 3
    ensures var blocks := Plan(req, caller, id, read).value;
            && req.key.kind == ExecutionConfirmation
            && read.directive.Some? && blocks[1].write.Save? && blocks[1].key == read.directive.value.key
            && read.gate.Some? && blocks[2].write.Save? && blocks[2].key == read.gate.value.key
  {
  }

  /** Serialisability of a whole run: every successful commit of an honest
      interleaved run refines the one-step handler at its commit point, again but for
      a deletion that finds another status than it has read. */
  lemma RunRefinesAtomicIff(w: World, events: seq<Event>, i: nat)
    requires Sound(w) && AllAddressed(w) && HonestRun(w, events) && i < |events|
    requires Succeeds(Run(w, events[..i]), events[i])
    ensures var before := Run(w, events[..i]);
            var o := before.ops[events[i].op];
            && Effect(before.db, o, events[i].id) == Ok(Run(w, events[..i + 1]).db)
            && (Refines(before.db, o, events[i].id) <==> DeletesWhatItRead(before.db, o))
  {
    RunSegment(w, events, i, i + 1);
    RunAddressed(w, events[..i]);
    RunPrefix(w, events, i);
    var now := Run(w, events[..i]);
    CommitRefinesAtomicIff(now.db, now.ops[events[i].op], events[i].id);
  }
}
