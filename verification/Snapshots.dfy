/** Handlers in flight hold snapshots of rows. What those snapshots say about the
    stored rows when the handler finally commits, with no assumption on clients. */
module Snapshots {
  import opened Text
  import opened Records
  import opened Transactions
  import opened Handlers
  import opened Interleaving
  import opened Versions

  /** `row` was stored live under `key` at this or an earlier time. */
  predicate Snapshot(db: Db, key: Key, row: Row) {
    key in db.rows && !row.deleted && Newer(row, db.rows[key])
  }

  predicate InFlight(db: Db, o: Op) {
    && Typed(o.read)
    && (o.read.primary.Some? ==> !o.req.Create? && Snapshot(db, o.req.key, o.read.primary.value))
    && (o.read.directive.Some? ==> Snapshot(db, o.read.directive.value.key, o.read.directive.value.row))
    && (o.read.gate.Some? ==> Snapshot(db, o.read.gate.value.key, o.read.gate.value.row))
  }

  predicate Tracked(w: World) {
    forall op :: op in w.ops ==> InFlight(w.db, w.ops[op])
  }

  lemma InFlightGrows(a: Db, b: Db, o: Op)
    requires InFlight(a, o) && Grows(a, b)
    ensures InFlight(b, o)
  {
  }

  lemma ReadInFlight(db: Db, o: Op)
    requires InFlight(db, o)
    ensures InFlight(db, o.(read := ReadNext(db, o.req, o.read, o.stage), stage := o.stage + 1))
  {
  }

  lemma EffectConserves(db: Db, o: Op, id: nat, k: Key)
    requires InFlight(db, o) && Effect(db, o, id).Ok?
    ensures var next := Effect(db, o, id).value;
            && Grows(db, next)
            && VersionOf(next, k) - VersionOf(db, k) == Advances(next.audits, k) - Advances(db.audits, k)
            && Entries(next.audits, k) == Entries(db.audits, k) + (if Touched(db, next, k) then 1 else 0)
  {
    PlanDocumented(o.req, o.caller, id, o.read);
    TransactionConserves(db, Plan(o.req, o.caller, id, o.read).value, k);
  }

  lemma StepConserves(w: World, e: Event, k: Key)
    requires Tracked(w)
    ensures var next := Next(w, e);
            && Tracked(next)
            && Grows(w.db, next.db)
            && VersionOf(next.db, k) - VersionOf(w.db, k) == Advances(next.db.audits, k) - Advances(w.db.audits, k)
  {
    match e
    case Begin(_, _, _) =>
    case Read(op) =>
      if op in w.ops { ReadInFlight(w.db, w.ops[op]); }
    case Commit(op, id) =>
      if Succeeds(w, e) {
        EffectConserves(w.db, w.ops[op], id, k);
        forall p | p in Next(w, e).ops ensures InFlight(Next(w, e).db, w.ops[p]) {
          InFlightGrows(w.db, Next(w, e).db, w.ops[p]);
        }
      }
  }

  /** In every interleaving, whatever versions clients send: versions never
      decrease, tombstones never change, ledger and log only grow, and every row's
      version moves with its number of non-delete audit entries. */
  lemma {:induction false} RunConserves(w: World, events: seq<Event>, k: Key)
    requires Tracked(w)
    ensures var last := Run(w, events);
            && Tracked(last)
            && Grows(w.db, last.db)
            && VersionOf(last.db, k) - VersionOf(w.db, k) == Advances(last.db.audits, k) - Advances(w.db.audits, k)
    decreases |events|
  {
    if events == [] {
    } else {
      var init := events[..|events| - 1];
      RunConserves(w, init, k);
      StepConserves(Run(w, init), events[|events| - 1], k);
      GrowsTransitive(w.db, Run(w, init).db, Run(w, events).db);
    }
  }

  /** A row created during a run has exactly as many non-delete audit entries,
      written during the run, as its version says. */
  lemma CreatedRowVersionIsLogged(w: World, events: seq<Event>, k: Key)
    requires Tracked(w) && k !in w.db.rows && k in Run(w, events).db.rows
    ensures var last := Run(w, events).db;
            |w.db.audits| <= |last.audits| && last.rows[k].version == Advances(last.audits[|w.db.audits|..], k)
  {
    hide Run, Tracked, Newer;
    RunConserves(w, events, k);
    var n := |w.db.audits|;
    var last := Run(w, events).db;
    assert last.audits == w.db.audits + last.audits[n..];
    CountsAppend(w.db.audits, last.audits[n..], k);
  }

  /** A committed transaction adds one audit entry for every row it created,
      updated or deleted, and none for any other row. */
  lemma CommitLogsEachRowOnce(w: World, e: Event, k: Key)
    requires Tracked(w) && Succeeds(w, e)
    ensures var next := Next(w, e);
            && w.db.audits <= next.db.audits
            && Entries(next.db.audits[|w.db.audits|..], k) == if Touched(w.db, next.db, k) then 1 else 0
  {
    var next := Next(w, e).db;
    EffectConserves(w.db, w.ops[e.op], e.id, k);
    assert next.audits == w.db.audits + next.audits[|w.db.audits|..];
    CountsAppend(w.db.audits, next.audits[|w.db.audits|..], k);
  }

  // ------------------------------------------------------ when a commit is up to date

  /** A versioned request writes its own row first, under the client's version. */
  lemma OwnBlockFirst(req: Request, caller: Caller, id: nat, read: Reads)
    requires Versioned(req) && Plan(req, caller, id, read).Ok?
    ensures read.primary.Some?
    ensures var b := Plan(req, caller, id, read).value;
            |b| > 0 && b[0].key == req.key && b[0].write.Save? && b[0].write.expected == req.expected
  {
    hide Tidy, CopyFrom, ValidFields, TrimSpace, Canon, EqualFold, Logged;
  }

  lemma OwnRowMatched(db: Db, o: Op, id: nat)
    requires InFlight(db, o) && Versioned(o.req) && Effect(db, o, id).Ok?
    ensures o.read.primary.Some? && LiveAt(db, o.req.key) && db.rows[o.req.key].version == o.req.expected
  {
    OwnBlockFirst(o.req, o.caller, id, o.read);
    var blocks := Plan(o.req, o.caller, id, o.read).value;
    assert ApplyBlock(db, blocks[0]).Ok?;
  }

  /** The stored version is compared with the client's version, never with the one
      the handler read. So a successful commit has overwritten exactly what it read
      if and only if the client sent the version the handler read. */
  lemma CommitIsUpToDateIff(w: World, e: Event)
    requires Tracked(w) && Succeeds(w, e) && Versioned(w.ops[e.op].req)
    ensures var o := w.ops[e.op];
            && o.read.primary.Some? && o.req.key in w.db.rows
            && (w.db.rows[o.req.key] == o.read.primary.value <==> o.req.expected == o.read.primary.value.version)
  {
    OwnRowMatched(w.db, w.ops[e.op], e.id);
  }
}
