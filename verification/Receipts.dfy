/** Execution confirmations: the columns they copy from their directive, and what
    becomes of one whose directive was aborted. */
module Receipts {
  import opened Outcomes
  import opened Text
  import opened Statuses
  import opened Records
  import opened Transactions
  import opened Handlers
  import opened Interleaving
  import opened Versions
  import opened Lifecycle
  import opened Validity
  import opened Agreement
  import opened Reachability

  // --------------------------------------------------------------------- copied columns

  predicate Copies(confirmation: Business, directive: Business) {
    && confirmation.facility == directive.facility
    && confirmation.category == directive.category
    && confirmation.riskLevel == directive.riskLevel
  }

  /** Every confirmation outside `legacy` carries its directive's columns. */
  ghost predicate Coherent(db: Db, legacy: set<Key>) {
    forall c, d :: Names(db, c, d) && c !in legacy ==> Copies(db.rows[c].business, db.rows[d].business)
  }

  /** A confirmation's columns are left alone, or copied from an executing snapshot
      of the directive it names. */
  predicate CopiedFrom(business: Business, directive: Option<Found>) {
    && directive.Some? && directive.value.row.status == Executing
    && business.relatedCode == directive.value.row.code
    && Copies(business, directive.value.row.business)
  }

  /** A confirmation's row is written only by a request for that confirmation, in
      the first block. */
  lemma ReceiptBlockIsOwn(req: Request, caller: Caller, id: nat, read: Reads, i: nat)
    requires Plan(req, caller, id, read).Ok? && i < |Plan(req, caller, id, read).value| && Typed(read)
    requires Plan(req, caller, id, read).value[i].key.kind == ExecutionConfirmation
    ensures KindOf(req) == ExecutionConfirmation && i == 0
    ensures !req.Create? ==> read.primary.Some? && Plan(req, caller, id, read).value[i].key == req.key
  {
    hide Tidy, CopyFrom, ValidFields, TrimSpace, Canon, EqualFold, Logged;
  }

  lemma CreatedColumns(req: Request, caller: Caller, id: nat, read: Reads)
    requires req.Create? && req.kind == ExecutionConfirmation && Plan(req, caller, id, read).Ok?
    ensures var b := Plan(req, caller, id, read).value[0];
            b.write.Insert? && CopiedFrom(b.write.row.business, read.directive)
  {
  }

  lemma UpdatedColumns(req: Request, caller: Caller, id: nat, read: Reads)
    requires req.Update? && req.key.kind == ExecutionConfirmation && Plan(req, caller, id, read).Ok?
    ensures var b := Plan(req, caller, id, read).value[0];
            && b.write.Save? && CopiedFrom(b.write.row.business, read.directive)
            && read.primary.Some? && b.write.row.status == read.primary.value.status == Pending
  {
  }

  lemma TransitionedColumns(req: Request, caller: Caller, id: nat, read: Reads)
    requires req.Transition? && req.key.kind == ExecutionConfirmation && Plan(req, caller, id, read).Ok?
    ensures var b := Plan(req, caller, id, read).value[0];
            && b.write.Save? && read.primary.Some? && b.write.row.business == read.primary.value.business
  {
  }

  lemma CommitCopies(db: Db, o: Op, id: nat, c: Key)
    requires OpOk(db, o) && Effect(db, o, id).Ok?
    requires c.kind == ExecutionConfirmation && c in Effect(db, o, id).value.rows
    ensures var row := Effect(db, o, id).value.rows[c];
            (c in db.rows && row.business == db.rows[c].business) || CopiedFrom(row.business, o.read.directive)
  {
    var blocks := Plan(o.req, o.caller, id, o.read).value;
    PlanDocumented(o.req, o.caller, id, o.read);
    if WritesKey(blocks, c) {
      var i :| 0 <= i < |blocks| && blocks[i].key == c;
      RowAfter(db, blocks, i);
      ReceiptBlockIsOwn(o.req, o.caller, id, o.read, i);
      match o.req
      case Create(_, _, _, _, _) => CreatedColumns(o.req, o.caller, id, o.read);
      case Update(_, _, _, _, _) => UpdatedColumns(o.req, o.caller, id, o.read);
      case Transition(_, _, _, _) =>
        TransitionedColumns(o.req, o.caller, id, o.read);
        SaveOverwritesItsSource(db, o, id, 0);
      case Delete(_) =>
    } else {
      RowUntouched(db, blocks, c);
    }
  }

  lemma UntouchedStaysCoherent(db: Db, next: Db, legacy: set<Key>, c: Key, d: Key)
    requires Agreeing(db) && Coherent(db, legacy) && Evolves(db, next) && Unique(next)
    requires Names(next, c, d) && c !in legacy && c in db.rows && next.rows[c].business == db.rows[c].business
    ensures Copies(next.rows[c].business, next.rows[d].business)
  {
    var e :| Names(db, c, e);
    NamesKept(db, next, c, e);
    assert d == e;
    assert Agree(db.rows[c].status, db.rows[d].status);
    assert Follows(d.kind, db.rows[d], next.rows[d]);
  }

  /** The columns a confirmation copies from an executing directive never change. */
  lemma CopiedColumnsKept(db: Db, o: Op)
    requires OpOk(db, o) && o.read.directive.Some? && o.read.directive.value.row.status == Executing
    ensures o.read.directive.value.key in db.rows && o.read.directive.value.key.kind == OperationDirective
    ensures var row := db.rows[o.read.directive.value.key];
            row.code == o.read.directive.value.row.code && row.business == o.read.directive.value.row.business
                && row.status != Draft
  {
    var e := o.read.directive.value;
    assert Newer(e.row, db.rows[e.key]);
  }

  lemma CopiedIsCoherent(db: Db, next: Db, o: Op, c: Key, d: Key)
    requires OpOk(db, o) && Evolves(db, next) && Unique(next)
    requires Names(next, c, d) && CopiedFrom(next.rows[c].business, o.read.directive)
    ensures Copies(next.rows[c].business, next.rows[d].business)
  {
    CopiedColumnsKept(db, o);
    hide OpOk;
    var e := o.read.directive.value.key;
    assert Newer(db.rows[e], next.rows[e]) && Follows(e.kind, db.rows[e], next.rows[e]);
    assert d == e;
  }

  lemma CommitKeepsCoherent(db: Db, o: Op, id: nat, legacy: set<Key>)
    requires Valid(db) && OpOk(db, o) && Effect(db, o, id).Ok? && Coherent(db, legacy)
    ensures Coherent(Effect(db, o, id).value, legacy)
  {
    var next := Effect(db, o, id).value;
    CommitKeeps(db, o, id);
    forall c, d | Names(next, c, d) && c !in legacy ensures Copies(next.rows[c].business, next.rows[d].business) {
      CommitCopies(db, o, id, c);
      if CopiedFrom(next.rows[c].business, o.read.directive) {
        CopiedIsCoherent(db, next, o, c, d);
      } else {
        UntouchedStaysCoherent(db, next, legacy, c, d);
      }
    }
  }

  /** Copied columns stay coherent in every reachable state, for every confirmation
      that was coherent at the start or is created during the run. */
  lemma {:induction false} RunCoherent(w: World, events: seq<Event>, legacy: set<Key>)
    requires Sound(w) && HonestRun(w, events) && Coherent(w.db, legacy)
    ensures Coherent(Run(w, events).db, legacy)
    decreases |events|
  {
    if events == [] {
    } else {
      var n := |events| - 1;
      HonestPrefix(w, events, n);
      RunSound(w, events[..n]);
      RunCoherent(w, events[..n], legacy);
      var before := Run(w, events[..n]);
      if Succeeds(before, events[n]) {
        CommitKeepsCoherent(before.db, before.ops[events[n].op], events[n].id, legacy);
      }
    }
  }

  // ------------------------------------------------------------------------ repairing

  predicate Copied(db: Db, c: Key, d: Key) {
    c in db.rows && d in db.rows && Copies(db.rows[c].business, db.rows[d].business)
  }

  /** Event `e` commits an update of `c`. */
  ghost predicate Updates(w: World, e: Event, c: Key) {
    Succeeds(w, e) && w.ops[e.op].req.Update? && w.ops[e.op].req.key == c
  }

  /** An update leaves its confirmation with copied columns; any other commit leaves the
      columns of a stored confirmation alone. */
  lemma OnlyUpdatesCopy(db: Db, o: Op, id: nat, c: Key)
    requires OpOk(db, o) && Effect(db, o, id).Ok? && c.kind == ExecutionConfirmation && c in db.rows
    ensures c in Effect(db, o, id).value.rows
    ensures var business := Effect(db, o, id).value.rows[c].business;
            if o.req.Update? && o.req.key == c then CopiedFrom(business, o.read.directive)
            else business == db.rows[c].business
  {
    hide Follows, ApplyAll;
    var blocks := Plan(o.req, o.caller, id, o.read).value;
    PlanDocumented(o.req, o.caller, id, o.read);
    if o.req.Update? { UpdatePlanShape(o.req, o.caller, id, o.read); }
    if WritesKey(blocks, c) {
      var i :| 0 <= i < |blocks| && blocks[i].key == c;
      RowAfter(db, blocks, i);
      ReceiptBlockIsOwn(o.req, o.caller, id, o.read, i);
      match o.req
      case Create(_, _, _, _, _) =>
      case Update(_, _, _, _, _) => UpdatedColumns(o.req, o.caller, id, o.read);
      case Transition(_, _, _, _) =>
        TransitionedColumns(o.req, o.caller, id, o.read);
        SaveOverwritesItsSource(db, o, id, 0);
      case Delete(_) =>
    } else {
      RowUntouched(db, blocks, c);
    }
  }

  /** The directive of a stored confirmation never changes its copied columns. */
  lemma NamedDirectiveKept(db: Db, next: Db, c: Key, d: Key)
    requires Agreeing(db) && Evolves(db, next) && Names(db, c, d)
    ensures Names(next, c, d) && next.rows[d].business == db.rows[d].business
  {
    NamesKept(db, next, c, d);
    assert Agree(db.rows[c].status, db.rows[d].status);
    assert Follows(d.kind, db.rows[d], next.rows[d]);
  }

  lemma CommitCopiedIff(db: Db, o: Op, id: nat, c: Key, d: Key)
    requires Valid(db) && OpOk(db, o) && Effect(db, o, id).Ok? && Names(db, c, d)
    ensures Names(Effect(db, o, id).value, c, d)
    ensures Copied(Effect(db, o, id).value, c, d) <==> Copied(db, c, d) || (o.req.Update? && o.req.key == c)
  {
    hide Plan, ApplyAll, OpOk, Agreeing, Unique, CopiedFrom;
    var next := Effect(db, o, id).value;
    CommitKeeps(db, o, id);
    NamedDirectiveKept(db, next, c, d);
    OnlyUpdatesCopy(db, o, id, c);
    if o.req.Update? && o.req.key == c { CopiedIsCoherent(db, next, o, c, d); }
  }

  lemma StepCopiedIff(w: World, e: Event, c: Key, d: Key)
    requires Sound(w) && Names(w.db, c, d)
    ensures Names(Next(w, e).db, c, d)
    ensures Copied(Next(w, e).db, c, d) <==> Copied(w.db, c, d) || Updates(w, e, c)
  {
    hide Plan, ApplyAll, OpOk, Copied, Valid;
    DbAfter(w, e);
    if Succeeds(w, e) { CommitCopiedIff(w.db, w.ops[e.op], e.id, c, d); }
  }

  /** Some event of the run commits an update of `c`. */
  ghost predicate EverUpdated(w: World, events: seq<Event>, c: Key) {
    exists i :: 0 <= i < |events| && Updates(Run(w, events[..i]), events[i], c)
  }

  lemma EverUpdatedPush(w: World, events: seq<Event>, n: nat, c: Key)
    requires n + 1 == |events|
    ensures EverUpdated(w, events, c) <==>
            EverUpdated(w, events[..n], c) || Updates(Run(w, events[..n]), events[n], c)
  {
    hide Run, Updates;
    var init := events[..n];
    if EverUpdated(w, events, c) {
      var i :| 0 <= i < |events| && Updates(Run(w, events[..i]), events[i], c);
      if i < n { assert init[..i] == events[..i] && init[i] == events[i]; }
    }
    if EverUpdated(w, init, c) {
      var i :| 0 <= i < n && Updates(Run(w, init[..i]), init[i], c);
      assert init[..i] == events[..i] && init[i] == events[i];
    }
  }

  /** Exactly when the columns of a stored confirmation are its directive's at the end of
      an honest run: they were at its start, or the confirmation was updated, which
      repairs it for good. */
  lemma {:induction false} RunCopiedIff(w: World, events: seq<Event>, c: Key, d: Key)
    requires Sound(w) && HonestRun(w, events) && Names(w.db, c, d)
    ensures Names(Run(w, events).db, c, d)
    ensures Copied(Run(w, events).db, c, d) <==> Copied(w.db, c, d) || EverUpdated(w, events, c)
    decreases |events|
  {
    if events == [] {
    } else {
      hide Copied, Updates, EverUpdated, Sound, HonestRun, Names;
      var n := |events| - 1;
      HonestPrefix(w, events, n);
      RunSound(w, events[..n]);
      RunCopiedIff(w, events[..n], c, d);
      StepCopiedIff(Run(w, events[..n]), events[n], c, d);
      EverUpdatedPush(w, events, n, c);
    }
  }
}
